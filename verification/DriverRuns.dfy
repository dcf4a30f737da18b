/** Whole runs of the driver on the in-memory plane, which never forgets a CLEANED marker. Such markers
    expire in Redis; a world is compared after putting the expired ones back. */
module DriverRuns {
  import opened Domain
  import opened RedisKeys
  import opened MemoryControl
  import opened Fencing
  import opened PendingListing
  import opened Refinement
  import opened DriverRefinement
  import L = Lifecycle
  import F = FencedRuns
  import Frame = StepFrame

  // ---------------------------------------------------------------- expired markers

  /** Expired markers: the in-memory plane still has these records, Redis does not. */
  type Lapsed = map<GenerationKey, Kept<Record>>

  ghost predicate LapsedOk(gens: Records, x: Lapsed) {
    forall k | k in x :: k !in gens && x[k].value.state == Cleaned
  }

  ghost function WithLapsed(k: Keys, x: Lapsed): Keys {
    k.(gens := k.gens + x)
  }

  ghost function Restored(s: World, x: Lapsed): World {
    s.(keys := WithLapsed(s.keys, x))
  }

  ghost function RestoredSystem(s: L.System, x: Lapsed): L.System {
    s.(world := Restored(s.world, x))
  }

  /** What is still missing once `gens` are stored. */
  ghost function Missing(x: Lapsed, gens: Records): Lapsed {
    x - gens.Keys
  }

  lemma RestoredEvolves(s: World, x: Lapsed)
    requires LapsedOk(s.keys.gens, x)
    ensures Evolves(s, Restored(s, x))
    ensures forall m :: PublishedAs(Restored(s, x).keys.gens, m) <==> PublishedAs(s.keys.gens, m)
  {
  }

  // ---------------------------------------------------------------- the scripts do not see expired markers

  /** The script answers the same over both, and stores the same. */
  ghost predicate SameReply(x: Lapsed, reply: Reply, restored: Reply) {
    restored.code == reply.code && restored.keys == WithLapsed(reply.keys, Missing(x, reply.keys.gens))
  }

  lemma NothingMissing(k: Keys, x: Lapsed)
    requires LapsedOk(k.gens, x)
    ensures Missing(x, k.gens) == x
  {
  }

  lemma WrittenOver(k: Keys, x: Lapsed, key: GenerationKey, kept: Kept<Record>)
    requires LapsedOk(k.gens, x)
    ensures (k.gens + x)[key := kept] == k.gens[key := kept] + Missing(x, k.gens[key := kept])
  {
  }

  lemma HoldsRestored(k: Keys, x: Lapsed, key: GenerationKey, r: Record)
    requires LapsedOk(k.gens, x) && r.state != Cleaned
    ensures WithLapsed(k, x).Holds(key, r) <==> k.Holds(key, r)
  {
  }

  lemma SwapRestored(k: Keys, x: Lapsed, a: Accession, owner: string, from: Record, to: Record, volatile: bool)
    requires LapsedOk(k.gens, x) && from.state != Cleaned
    ensures SameReply(x, SwapScript(k, a, owner, from, to, volatile), SwapScript(WithLapsed(k, x), a, owner, from, to, volatile))
  {
    hide Missing;
    NothingMissing(k, x);
    WrittenOver(k, x, GenerationKey(a, from.manifest.gen), Kept(to, volatile));
  }

  lemma StageRestored(k: Keys, x: Lapsed, a: Accession, owner: string, m: Manifest)
    requires LapsedOk(k.gens, x)
    requires GenerationKey(a, m.gen) in x ==> x[GenerationKey(a, m.gen)].value in RecoverableRecords(m)
    ensures SameReply(x, StageScript(k, a, owner, m), StageScript(WithLapsed(k, x), a, owner, m))
  {
    hide Missing, RecoverableRecords;
    NothingMissing(k, x);
    WrittenOver(k, x, GenerationKey(a, m.gen), Kept(StagedRecord(m), false));
  }

  lemma PublishRestored(s: World, x: Lapsed, w: L.Worker)
    requires LapsedOk(s.keys.gens, x)
    ensures SameReply(x, L.PublishReply(s, w), L.PublishReply(Restored(s, x), w))
  {
    hide Missing, Added, LapsedOk, PendingFor;
    NothingMissing(s.keys, x);
    HoldsRestored(s.keys, x, KeyOf(w.manifest), VerifiedRecord(w.manifest));
    WrittenOver(s.keys, x, KeyOf(w.manifest), Kept(PublishedRecord(w.manifest), false));
  }

  lemma CleanRestored(k: Keys, x: Lapsed, a: Accession, owner: string, c: CleanupRecord)
    requires LapsedOk(k.gens, x)
    ensures SameReply(x, CleanSupersededScript(k, a, owner, c), CleanSupersededScript(WithLapsed(k, x), a, owner, c))
  {
    hide Missing, Removed;
    NothingMissing(k, x);
  }

  lemma ReleaseRestored(k: Keys, x: Lapsed, a: Accession, owner: string)
    requires LapsedOk(k.gens, x)
    ensures SameReply(x, LeaseReleaseScript(k, a, owner), LeaseReleaseScript(WithLapsed(k, x), a, owner))
  {
    hide Missing;
    NothingMissing(k, x);
  }

  lemma ActiveRestored(s: World, x: Lapsed, a: Accession, gen: string)
    requires LapsedOk(s.keys.gens, x)
    ensures L.ActiveRecordAccepted(Restored(s, x).keys, a, gen) <==> L.ActiveRecordAccepted(s.keys, a, gen)
    ensures L.ActiveRecordAccepted(s.keys, a, gen) ==>
              GenerationKey(a, gen) !in x && Restored(s, x).keys.gens[GenerationKey(a, gen)] == s.keys.gens[GenerationKey(a, gen)]
  {
  }

  lemma {:induction false} LoadRestored(k: Keys, x: Lapsed, scope: Scope, order: seq<CleanupKey>)
    ensures L.LoadPending(WithLapsed(k, x), scope, order) == L.LoadPending(k, scope, order)
  {
    if order != [] {
      LoadRestored(k, x, scope, order[1..]);
    }
  }

  // ---------------------------------------------------------------- one step

  /** A recovery is about to look for the expired marker. */
  ghost predicate SeesLapsed(w: L.Worker, x: Lapsed) {
    w.phase.RecoveryStage? && KeyOf(w.manifest) in x
  }

  /** The same effect over both worlds. */
  ghost predicate Alike(x: Lapsed, e: L.Effect, e': L.Effect) {
    e'.worker == e.worker && e'.world == Restored(e.world, Missing(x, e.world.keys.gens))
  }

  /** A script that answers the same has the same effect, whatever becomes of its reply. */
  lemma AfterAlike(s: World, x: Lapsed, fate: Fate, reply: Reply, reply': Reply)
    requires LapsedOk(s.keys.gens, x) && SameReply(x, reply, reply')
    ensures var t := s.After(fate, reply); Restored(s, x).After(fate, reply') == Restored(t, Missing(x, t.keys.gens))
  {
    NothingMissing(s.keys, x);
  }

  lemma StepRestored(s: World, x: Lapsed, w: L.Worker, c: L.Choice)
    requires LapsedOk(s.keys.gens, x) && WorkerOk(s, w) && !SeesLapsed(w, x)
    requires KeyOf(w.manifest) in x ==> x[KeyOf(w.manifest)].value in RecoverableRecords(w.manifest)
    ensures Alike(x, L.Step(s, w, c), L.Step(Restored(s, x), w, c))
  {
    OwnRecords(s, w);
    hide WorkerOk, Alike, RecoverableRecords, LapsedOk, L.Step;
    if Frame.WritesGeneration(w.phase) {
      GenerationAlike(s, x, w, c);
    } else if Frame.WritesPoints(w.phase) {
      PointsAlike(s, x, w, c);
    } else if Frame.Writes(w.phase) {
      OtherWriteAlike(s, x, w, c);
    } else {
      ReadAlike(s, x, w, c);
    }
  }

  ghost predicate OwnRecord(w: L.Worker) {
    && (w.phase.AbortStage? ==> w.stage.Some?)
    && (w.stage.Some? ==> w.stage.value.manifest == w.manifest && w.stage.value.state != Cleaned)
    && (w.phase.AbortClean? ==> w.phase.aborted.manifest == w.manifest && w.phase.aborted.state == Aborted)
  }

  lemma OwnRecords(s: World, w: L.Worker)
    requires WorkerOk(s, w)
    ensures OwnRecord(w)
  {
  }

  lemma GenerationAlike(s: World, x: Lapsed, w: L.Worker, c: L.Choice)
    requires LapsedOk(s.keys.gens, x) && Frame.WritesGeneration(w.phase) && OwnRecord(w)
    requires KeyOf(w.manifest) in x ==> x[KeyOf(w.manifest)].value in RecoverableRecords(w.manifest)
    ensures Alike(x, L.Step(s, w, c), L.Step(Restored(s, x), w, c))
  {
    hide L.StepStage, L.StepMarkVerified, L.StepPublish, L.StepAbort, L.StepAbortClean, RecoverableRecords, LapsedOk, Alike;
    match w.phase
    case Stage => StageAlike(s, x, w, c);
    case MarkVerified => MarkVerifiedAlike(s, x, w, c);
    case Publish => PublishAlike(s, x, w, c);
    case AbortStage => AbortAlike(s, x, w, c);
    case AbortClean(r) => AbortCleanAlike(s, x, w, c);
  }

  lemma StageAlike(s: World, x: Lapsed, w: L.Worker, c: L.Choice)
    requires LapsedOk(s.keys.gens, x)
    requires KeyOf(w.manifest) in x ==> x[KeyOf(w.manifest)].value in RecoverableRecords(w.manifest)
    ensures Alike(x, L.StepStage(s, w, c), L.StepStage(Restored(s, x), w, c))
  {
    hide StageScript, RecoverableRecords, Missing, LapsedOk;
    StageRestored(s.keys, x, w.Filing(), w.owner, w.manifest);
    AfterAlike(s, x, c.fate, StageScript(s.keys, w.Filing(), w.owner, w.manifest),
               StageScript(WithLapsed(s.keys, x), w.Filing(), w.owner, w.manifest));
  }

  lemma SwapAlike(s: World, x: Lapsed, w: L.Worker, fate: Fate, from: Record, to: Record, volatile: bool)
    requires LapsedOk(s.keys.gens, x) && from.state != Cleaned
    ensures var r := SwapScript(s.keys, w.Filing(), w.owner, from, to, volatile);
            var r' := SwapScript(Restored(s, x).keys, w.Filing(), w.owner, from, to, volatile);
            var t := s.After(fate, r);
            r'.code == r.code && Restored(s, x).After(fate, r') == Restored(t, Missing(x, t.keys.gens))
  {
    hide SwapScript, Missing, LapsedOk;
    SwapRestored(s.keys, x, w.Filing(), w.owner, from, to, volatile);
    AfterAlike(s, x, fate, SwapScript(s.keys, w.Filing(), w.owner, from, to, volatile),
               SwapScript(WithLapsed(s.keys, x), w.Filing(), w.owner, from, to, volatile));
  }

  lemma MarkVerifiedAlike(s: World, x: Lapsed, w: L.Worker, c: L.Choice)
    requires LapsedOk(s.keys.gens, x)
    ensures Alike(x, L.StepMarkVerified(s, w, c), L.StepMarkVerified(Restored(s, x), w, c))
  {
    hide SwapScript, Missing, LapsedOk, Restored;
    SwapAlike(s, x, w, c.fate, StagedRecord(w.manifest), VerifiedRecord(w.manifest), false);
  }

  lemma AbortAlike(s: World, x: Lapsed, w: L.Worker, c: L.Choice)
    requires LapsedOk(s.keys.gens, x) && w.stage.Some? && w.stage.value.state != Cleaned
    ensures Alike(x, L.StepAbort(s, w, c), L.StepAbort(Restored(s, x), w, c))
  {
    hide SwapScript, Missing, LapsedOk, Restored;
    SwapAlike(s, x, w, c.fate, w.stage.value, w.stage.value.WithState(Aborted), false);
  }

  lemma AbortCleanAlike(s: World, x: Lapsed, w: L.Worker, c: L.Choice)
    requires LapsedOk(s.keys.gens, x) && w.phase.AbortClean? && w.phase.aborted.state != Cleaned
    ensures Alike(x, L.StepAbortClean(s, w, c, w.phase.aborted), L.StepAbortClean(Restored(s, x), w, c, w.phase.aborted))
  {
    hide SwapScript, Missing, LapsedOk, Restored;
    SwapAlike(s, x, w, c.fate, w.phase.aborted, w.phase.aborted.WithState(Cleaned), true);
  }

  lemma PublishAlike(s: World, x: Lapsed, w: L.Worker, c: L.Choice)
    requires LapsedOk(s.keys.gens, x)
    ensures Alike(x, L.StepPublish(s, w, c), L.StepPublish(Restored(s, x), w, c))
  {
    hide L.PublishReply, Missing, LapsedOk;
    PublishRestored(s, x, w);
    AfterAlike(s, x, c.fate, L.PublishReply(s, w), L.PublishReply(Restored(s, x), w));
  }

  lemma PointsAlike(s: World, x: Lapsed, w: L.Worker, c: L.Choice)
    requires LapsedOk(s.keys.gens, x) && Frame.WritesPoints(w.phase)
    ensures Alike(x, L.Step(s, w, c), L.Step(Restored(s, x), w, c))
  {
    hide L.StepUpsert, L.StepCleanupDelete, L.StepAbortDelete, LapsedOk, Alike;
    match w.phase
    case Upsert(done) => UpsertAlike(s, x, w, c, done);
    case CleanupDelete(todo) => DeleteAlike(s, x, w, c, todo);
    case AbortDelete(r) => AbortDeleteAlike(s, x, w, c, r);
  }

  lemma UpsertAlike(s: World, x: Lapsed, w: L.Worker, c: L.Choice, done: nat)
    requires LapsedOk(s.keys.gens, x)
    ensures Alike(x, L.StepUpsert(s, w, c, done), L.StepUpsert(Restored(s, x), w, c, done))
  {
    hide Missing, LapsedOk;
    NothingMissing(s.keys, x);
  }

  lemma DeleteAlike(s: World, x: Lapsed, w: L.Worker, c: L.Choice, todo: seq<CleanupRecord>)
    requires LapsedOk(s.keys.gens, x)
    ensures Alike(x, L.StepCleanupDelete(s, w, c, todo), L.StepCleanupDelete(Restored(s, x), w, c, todo))
  {
    hide Missing, LapsedOk, L.Deleted, Restored;
    NothingMissing(s.keys, x);
    if todo != [] {
      DeletedAlike(s, x, c, KeyOf(todo[0].superseded));
    }
  }

  lemma DeletedAlike(s: World, x: Lapsed, c: L.Choice, key: GenerationKey)
    ensures L.Deleted(Restored(s, x), c, key) == Restored(L.Deleted(s, c, key), x) && L.Deleted(s, c, key).keys == s.keys
  {
  }

  lemma AbortDeleteAlike(s: World, x: Lapsed, w: L.Worker, c: L.Choice, r: Record)
    requires LapsedOk(s.keys.gens, x)
    ensures Alike(x, L.StepAbortDelete(s, w, c, r), L.StepAbortDelete(Restored(s, x), w, c, r))
  {
    hide Missing, LapsedOk, L.Deleted, Restored;
    NothingMissing(s.keys, x);
    DeletedAlike(s, x, c, KeyOf(w.manifest));
  }

  lemma OtherWriteAlike(s: World, x: Lapsed, w: L.Worker, c: L.Choice)
    requires LapsedOk(s.keys.gens, x) && (w.phase.Acquire? || w.phase.Release? || w.phase.CleanupMark?)
    ensures Alike(x, L.Step(s, w, c), L.Step(Restored(s, x), w, c))
  {
    hide L.StepAcquire, L.StepRelease, L.StepCleanupMark, LapsedOk, Alike;
    match w.phase
    case Acquire => AcquireAlike(s, x, w, c);
    case Release => ReleaseAlike(s, x, w, c);
    case CleanupMark(todo) => MarkAlike(s, x, w, c, todo);
  }

  lemma AcquireAlike(s: World, x: Lapsed, w: L.Worker, c: L.Choice)
    requires LapsedOk(s.keys.gens, x)
    ensures Alike(x, L.StepAcquire(s, w, c), L.StepAcquire(Restored(s, x), w, c))
  {
    hide L.LeaseSeconds, Missing, LapsedOk;
    NothingMissing(s.keys, x);
  }

  lemma ReleaseAlike(s: World, x: Lapsed, w: L.Worker, c: L.Choice)
    requires LapsedOk(s.keys.gens, x)
    ensures Alike(x, L.StepRelease(s, w, c), L.StepRelease(Restored(s, x), w, c))
  {
    hide LeaseReleaseScript, Missing, LapsedOk;
    ReleaseRestored(s.keys, x, w.Filing(), w.owner);
    AfterAlike(s, x, c.fate, LeaseReleaseScript(s.keys, w.Filing(), w.owner), LeaseReleaseScript(WithLapsed(s.keys, x), w.Filing(), w.owner));
  }

  lemma MarkAlike(s: World, x: Lapsed, w: L.Worker, c: L.Choice, todo: seq<CleanupRecord>)
    requires LapsedOk(s.keys.gens, x)
    ensures Alike(x, L.StepCleanupMark(s, w, c, todo), L.StepCleanupMark(Restored(s, x), w, c, todo))
  {
    hide CleanSupersededScript, Missing, LapsedOk;
    NothingMissing(s.keys, x);
    if todo != [] {
      CleanRestored(s.keys, x, w.Filing(), w.owner, todo[0]);
      AfterAlike(s, x, c.fate, CleanSupersededScript(s.keys, w.Filing(), w.owner, todo[0]),
                 CleanSupersededScript(WithLapsed(s.keys, x), w.Filing(), w.owner, todo[0]));
    }
  }

  lemma ReadAlike(s: World, x: Lapsed, w: L.Worker, c: L.Choice)
    requires LapsedOk(s.keys.gens, x) && !Frame.Writes(w.phase) && !SeesLapsed(w, x)
    ensures Alike(x, L.Step(s, w, c), L.Step(Restored(s, x), w, c))
  {
    hide Missing, LapsedOk, L.StepReadActiveRecord, L.StepConfirmRecord, L.StepRecoveryLoad, L.StepCleanupLoad,
         L.StepReadActive, L.StepConfirmActive, L.StepRecoveryStage, L.StepVerify, L.StepRecoveryInspect;
    NothingMissing(s.keys, x);
    match w.phase
    case ReadActiveRecord(gen) => RecordAlike(s, x, w, c, gen);
    case ConfirmRecord(gen) => RecordAlike(s, x, w, c, gen);
    case RecoveryLoad(keys) => LoadAlike(s, x, w, c, keys);
    case CleanupLoad(keys) => LoadAlike(s, x, w, c, keys);
    case _ => PlainReadAlike(s, x, w, c);
  }

  lemma RecordAlike(s: World, x: Lapsed, w: L.Worker, c: L.Choice, gen: string)
    requires LapsedOk(s.keys.gens, x)
    ensures L.StepReadActiveRecord(Restored(s, x), w, c, gen) == L.StepReadActiveRecord(s, w, c, gen)
    ensures L.StepConfirmRecord(Restored(s, x), w, c, gen) == L.StepConfirmRecord(s, w, c, gen)
  {
    hide L.ActiveRecordAccepted, LapsedOk;
    ActiveRestored(s, x, w.Filing(), gen);
  }

  lemma LoadAlike(s: World, x: Lapsed, w: L.Worker, c: L.Choice, keys: seq<CleanupKey>)
    ensures L.StepRecoveryLoad(Restored(s, x), w, c, keys) == L.StepRecoveryLoad(s, w, c, keys)
    ensures L.StepCleanupLoad(Restored(s, x), w, c, keys) == L.StepCleanupLoad(s, w, c, keys)
  {
    hide L.LoadPending, L.ForFiling;
    LoadRestored(s.keys, x, w.Filing().scope, keys);
  }

  lemma PlainReadAlike(s: World, x: Lapsed, w: L.Worker, c: L.Choice)
    requires LapsedOk(s.keys.gens, x)
    ensures L.StepReadActive(Restored(s, x), w, c) == L.StepReadActive(s, w, c)
    ensures L.StepConfirmActive(Restored(s, x), w, c) == L.StepConfirmActive(s, w, c)
    ensures KeyOf(w.manifest) !in x ==> L.StepRecoveryStage(Restored(s, x), w, c) == L.StepRecoveryStage(s, w, c)
    ensures forall done: nat :: L.StepVerify(Restored(s, x), w, c, done) == L.StepVerify(s, w, c, done)
    ensures L.StepRecoveryInspect(Restored(s, x), w, c) == L.StepRecoveryInspect(s, w, c)
  {
    assert forall k :: Restored(s, x).PointsOf(k) == s.PointsOf(k);
  }

  /** Where the planes differ: the recovery finds no marker and gives up, as if it was not answered. */
  lemma LapsedStep(s: World, x: Lapsed, w: L.Worker, c: L.Choice)
    requires LapsedOk(s.keys.gens, x) && SeesLapsed(w, x)
    ensures L.Step(s, w, c) == L.Effect(s, Unanswered(w)) && L.Step(Restored(s, x), w, c).world == Restored(s, x)
  {
  }

  // ---------------------------------------------------------------- one call

  lemma CallRestored(s: World, x: Lapsed, w: L.Worker)
    requires LapsedOk(s.keys.gens, x) && CallOf(w).Some? && !SeesLapsed(w, x)
    requires KeyOf(w.manifest) in x ==> x[KeyOf(w.manifest)].value in RecoverableRecords(w.manifest)
    ensures RedisCall(Restored(s, x), CallOf(w).value).1 == RedisCall(s, CallOf(w).value).1
  {
    hide RedisCall, RecoverableRecords, LapsedOk;
    match w.phase
    case Publish => PublishCallRestored(s, x, w);
    case RecoveryList => ListRestored(s, x, w.Filing().scope);
    case CleanupList => ListRestored(s, x, w.Filing().scope);
    case ReadActive => GetActiveRestored(s, x, w.Filing());
    case ConfirmActive => GetActiveRestored(s, x, w.Filing());
    case Acquire => PlainCallRestored(s, x, w);
    case RecoveryStage => PlainCallRestored(s, x, w);
    case Release => LeaseCallRestored(s, x, w);
    case CleanupMark(_) => LeaseCallRestored(s, x, w);
    case Stage => StageCallRestored(s, x, AccessionLease(w.Filing(), w.owner), w.manifest);
    case MarkVerified => SwapCallRestored(s, x, CallOf(w).value);
    case AbortStage => SwapCallRestored(s, x, CallOf(w).value);
    case AbortClean(_) => SwapCallRestored(s, x, CallOf(w).value);
  }

  lemma PlainCallRestored(s: World, x: Lapsed, w: L.Worker)
    requires w.phase.Acquire? || (w.phase.RecoveryStage? && KeyOf(w.manifest) !in x)
    ensures RedisCall(Restored(s, x), CallOf(w).value).1 == RedisCall(s, CallOf(w).value).1
  {
  }

  lemma LeaseCallRestored(s: World, x: Lapsed, w: L.Worker)
    requires LapsedOk(s.keys.gens, x) && CallOf(w).Some? && (w.phase.Release? || w.phase.CleanupMark?)
    ensures RedisCall(Restored(s, x), CallOf(w).value).1 == RedisCall(s, CallOf(w).value).1
  {
    hide RedisCall, LapsedOk, Restored;
    var lease := AccessionLease(w.Filing(), w.owner);
    if w.phase.CleanupMark? {
      MarkCallRestored(s, x, lease, w.phase.todo[0]);
    } else {
      ReleaseCallRestored(s, x, lease);
    }
  }

  lemma ReleaseCallRestored(s: World, x: Lapsed, lease: AccessionLease)
    requires LapsedOk(s.keys.gens, x)
    ensures RedisCall(Restored(s, x), ReleaseCall(lease)).1 == RedisCall(s, ReleaseCall(lease)).1
  {
    hide LeaseReleaseScript, Missing, LapsedOk;
    ReleaseRestored(s.keys, x, lease.accession, lease.owner);
  }

  lemma MarkCallRestored(s: World, x: Lapsed, lease: AccessionLease, c: CleanupRecord)
    requires LapsedOk(s.keys.gens, x)
    ensures RedisCall(Restored(s, x), MarkCleanedCall(lease, c)).1 == RedisCall(s, MarkCleanedCall(lease, c)).1
  {
    hide CleanSupersededScript, Missing, LapsedOk;
    CleanRestored(s.keys, x, lease.accession, lease.owner, c);
  }

  lemma SwapCallRestored(s: World, x: Lapsed, call: Call)
    requires LapsedOk(s.keys.gens, x) && (call.VerifyCall? || call.AbortCall? || call.CleanCall?)
    ensures RedisCall(Restored(s, x), call).1 == RedisCall(s, call).1
  {
    hide SwapScript, Missing, LapsedOk;
    var k, a, from := s.keys, call.lease.accession, call.stage;
    if from.state != Cleaned {
      match call
      case VerifyCall(lease, _, proof) =>
        SwapRestored(k, x, a, lease.owner, from, from.(state := Verified, proof := Some(proof)), false);
      case AbortCall(lease, _) => SwapRestored(k, x, a, lease.owner, from, from.WithState(Aborted), false);
      case CleanCall(lease, _) => SwapRestored(k, x, a, lease.owner, from, from.WithState(Cleaned), true);
    }
  }

  lemma StageCallRestored(s: World, x: Lapsed, lease: AccessionLease, m: Manifest)
    requires LapsedOk(s.keys.gens, x) && lease.accession == m.accession
    requires KeyOf(m) in x ==> x[KeyOf(m)].value in RecoverableRecords(m)
    ensures RedisCall(Restored(s, x), StageCall(lease, m)).1 == RedisCall(s, StageCall(lease, m)).1
  {
    hide StageScript, RecoverableRecords, Missing, LapsedOk;
    StageRestored(s.keys, x, lease.accession, lease.owner, m);
  }

  lemma PublishCallRestored(s: World, x: Lapsed, w: L.Worker)
    requires LapsedOk(s.keys.gens, x) && w.phase.Publish?
    ensures RedisCall(Restored(s, x), CallOf(w).value).1 == RedisCall(s, CallOf(w).value).1
  {
    PublishRestored(s, x, w);
    hide PublishScript, LapsedOk, Missing;
    assert VerifiedRecord(w.manifest).WithState(Published) == PublishedRecord(w.manifest);
  }

  lemma GetActiveRestored(s: World, x: Lapsed, a: Accession)
    requires LapsedOk(s.keys.gens, x)
    ensures RedisCall(Restored(s, x), GetActiveCall(a)).1 == RedisCall(s, GetActiveCall(a)).1
  {
    hide L.ActiveRecordAccepted, LapsedOk;
    if a in s.keys.active {
      ActiveRestored(s, x, a, s.keys.active[a]);
    }
  }

  lemma ListRestored(s: World, x: Lapsed, scope: Scope)
    ensures RedisCall(Restored(s, x), ListPendingCall(scope)).1 == RedisCall(s, ListPendingCall(scope)).1
  {
    assert forall k :: L.PendingAccepted(Restored(s, x).keys, scope, k) <==> L.PendingAccepted(s.keys, scope, k);
  }

  lemma LapsedCall(s: World, x: Lapsed, w: L.Worker)
    requires LapsedOk(s.keys.gens, x) && SeesLapsed(w, x) && x[KeyOf(w.manifest)].value.manifest == w.manifest
    ensures RedisCall(s, CallOf(w).value).1 == StageAnswer(None)
    ensures RedisCall(Restored(s, x), CallOf(w).value).1 == StageAnswer(Some(x[KeyOf(w.manifest)].value))
  {
  }

  // ---------------------------------------------------------------- one event

  /** The in-memory plane, what it told the workers, and the markers only it still has. */
  datatype Shadow = Shadow(plane: StandIn, lapsed: Lapsed)

  ghost function ShadowNext(d: Shadow, s: L.System, e: L.Event): Shadow {
    match e
    case MarkerExpires(k) => if k in s.world.keys.gens then d.(lapsed := d.lapsed[k := s.world.keys.gens[k]]) else d
    case Act(id, c) =>
      if id !in s.workers then d
      else Shadow(Told(d.plane, s, e), Missing(d.lapsed, L.Step(s.world, s.workers[id], c).world.keys.gens))
    case _ => d
  }

  ghost predicate Shadows(s: L.System, d: Shadow) {
    LapsedOk(s.world.keys.gens, d.lapsed) && Simulates(RestoredSystem(s, d.lapsed), d.plane)
  }

  /** What one event shows. Redis answers the worker's call as the in-memory plane does, and never by a
      refusal; only a recovery whose marker expired finds none. A worker that got no answer, whose listing
      was overtaken, or whose marker expired does what it does unanswered; any other does what the last
      answer of the in-memory plane says. */
  ghost predicate FollowsMemory(s: L.System, d: Shadow, e: L.Event, t: L.System) {
    e.Act? && e.id in s.workers ==>
      var w, told := s.workers[e.id], Told(d.plane, s, e).told;
      && e.id in t.workers
      && (CallOf(w).Some? ==>
            var redis, memory := RedisCall(s.world, CallOf(w).value).1, MemoryCall(d.plane.memory, CallOf(w).value).1;
            && memory != Unavailable
            && if SeesLapsed(w, d.lapsed)
               then redis == StageAnswer(None) && memory == StageAnswer(Some(d.lapsed[KeyOf(w.manifest)].value))
               else redis == memory)
      && (Control(w.phase) ==>
            if e.choice.fate != Delivered || Overtaken(s.world, w) || SeesLapsed(w, d.lapsed)
            then t.workers[e.id] == Unanswered(w)
            else e.id in told && Reacts(w, told[e.id], t.workers[e.id]))
  }

  lemma RestoredOk(s: L.System, d: Shadow)
    requires SystemOk(s) && Shadows(s, d)
    ensures SystemOk(RestoredSystem(s, d.lapsed))
  {
    hide WorkerOk, KeysOk, LapsedOk, Evolves;
    AbstractsParts(Restored(s.world, d.lapsed), d.plane.memory);
    RestoredEvolves(s.world, d.lapsed);
    forall id | id in s.workers ensures WorkerOk(Restored(s.world, d.lapsed), s.workers[id]) {
      WorkerKnowledgeStable(s.world, Restored(s.world, d.lapsed), s.workers[id]);
    }
  }

  /** An expired marker is one of its worker's own, canonical records. */
  lemma LapsedIsOwn(s: L.System, d: Shadow, id: nat)
    requires SystemOk(s) && Shadows(s, d) && OneManifestEach(s) && id in s.workers
    ensures var m := s.workers[id].manifest;
            KeyOf(m) in d.lapsed ==> d.lapsed[KeyOf(m)].value.manifest == m && d.lapsed[KeyOf(m)].value in RecoverableRecords(m)
  {
    hide HistoryOk, IndexOk, CleanupsOk, CleanupsComplete, CleanupIndexOk, RecoverableRecords, LeasesAgree, ActiveAgrees,
         StagesAgree, PendingAgrees, Knows;
    var s' := RestoredSystem(s, d.lapsed);
    var m := s.workers[id].manifest;
    OwnRecordNamed(s', s.workers[id], id);
    if KeyOf(m) in d.lapsed {
      assert s'.world.keys.gens[KeyOf(m)] == d.lapsed[KeyOf(m)];
      RecoverableExactly(m, d.lapsed[KeyOf(m)].value);
    }
  }

  lemma ActShadowed(s: L.System, d: Shadow, id: nat, c: L.Choice)
    requires SystemOk(s) && Shadows(s, d) && OneManifestEach(s) && L.Enabled(None, s, L.Act(id, c))
    ensures var e := L.Act(id, c); var t := L.Next(s, e); Shadows(t, ShadowNext(d, s, e)) && FollowsMemory(s, d, e, t)
  {
    hide KeysOk, WorkerOk, LapsedOk, Simulates, RecoverableRecords, L.Step, Reacts, Unanswered, Knows, L.Enumerates, MemoryCall, RedisCall,
         CallOf, Control, Restored, Missing, OneManifestEach, Overtaken;
    var x := d.lapsed;
    var w, s', e := s.workers[id], RestoredSystem(s, x), L.Act(id, c);
    RestoredOk(s, d);
    LapsedIsOwn(s, d, id);
    SameIndex(s, x, id, c);
    ActSimulated(s', d.plane, id, c);
    if SeesLapsed(w, x) {
      LapsedActs(s, d, id, c);
    } else {
      AlikeActs(s, d, id, c);
    }
  }

  lemma SameIndex(s: L.System, x: Lapsed, id: nat, c: L.Choice)
    requires L.Enabled(None, s, L.Act(id, c))
    ensures L.Enabled(None, RestoredSystem(s, x), L.Act(id, c)) && (OneManifestEach(s) ==> OneManifestEach(RestoredSystem(s, x)))
  {
    hide L.Enumerates;
  }

  /** Both systems move alike. */
  lemma AlikeActs(s: L.System, d: Shadow, id: nat, c: L.Choice)
    requires SystemOk(s) && Shadows(s, d) && L.Enabled(None, s, L.Act(id, c)) && L.Enabled(None, RestoredSystem(s, d.lapsed), L.Act(id, c))
    requires !SeesLapsed(s.workers[id], d.lapsed)
    requires var m := s.workers[id].manifest; KeyOf(m) in d.lapsed ==> d.lapsed[KeyOf(m)].value in RecoverableRecords(m)
    requires var e, s' := L.Act(id, c), RestoredSystem(s, d.lapsed);
             Simulates(L.Next(s', e), Told(d.plane, s', e)) && Faithful(s', d.plane, e, L.Next(s', e))
    ensures var e := L.Act(id, c); var t := L.Next(s, e); Shadows(t, ShadowNext(d, s, e)) && FollowsMemory(s, d, e, t)
  {
    hide KeysOk, WorkerOk, LapsedOk, Simulates, RecoverableRecords, L.Step, Reacts, Unanswered, Knows, L.Enumerates, MemoryCall, RedisCall,
         CallOf, Control, SeesLapsed, Restored, Missing;
    var x := d.lapsed;
    var w, s', e := s.workers[id], RestoredSystem(s, x), L.Act(id, c);
    StepRestored(s.world, x, w, c);
    if CallOf(w).Some? {
      CallRestored(s.world, x, w);
    }
    MissingIsLapsed(x, s.world.keys.gens, L.Step(s.world, w, c).world.keys.gens);
    SameOvertaken(s.world, x, w);
    assert L.Next(s', e) == RestoredSystem(L.Next(s, e), ShadowNext(d, s, e).lapsed);
  }

  lemma MissingIsLapsed(x: Lapsed, gens: Records, gens': Records)
    requires LapsedOk(gens, x)
    ensures LapsedOk(gens', Missing(x, gens'))
  {
  }

  lemma SameOvertaken(s: World, x: Lapsed, w: L.Worker)
    ensures Overtaken(Restored(s, x), w) <==> Overtaken(s, w)
  {
  }

  /** The recovery finds no marker where the in-memory plane still has it. */
  lemma LapsedActs(s: L.System, d: Shadow, id: nat, c: L.Choice)
    requires SystemOk(s) && Shadows(s, d) && L.Enabled(None, s, L.Act(id, c)) && L.Enabled(None, RestoredSystem(s, d.lapsed), L.Act(id, c))
    requires SeesLapsed(s.workers[id], d.lapsed)
    requires d.lapsed[KeyOf(s.workers[id].manifest)].value.manifest == s.workers[id].manifest
    requires var e, s' := L.Act(id, c), RestoredSystem(s, d.lapsed);
             Simulates(L.Next(s', e), Told(d.plane, s', e)) && Faithful(s', d.plane, e, L.Next(s', e))
    ensures var e := L.Act(id, c); var t := L.Next(s, e); Shadows(t, ShadowNext(d, s, e)) && FollowsMemory(s, d, e, t)
  {
    hide KeysOk, WorkerOk, LapsedOk, RecoverableRecords, L.Step, Reacts, Unanswered, Knows, L.Enumerates, MemoryCall, RedisCall,
         Control, Missing, Abstracts, Restored;
    var x := d.lapsed;
    var w, s', e := s.workers[id], RestoredSystem(s, x), L.Act(id, c);
    LapsedStep(s.world, x, w, c);
    LapsedCall(s.world, x, w);
    NothingMissing(s.world.keys, x);
    UnansweredKnows(s'.world, w, Told(d.plane, s, e).told, id);
    var t := L.Next(s, e);
    var t' := RestoredSystem(t, x);
    assert t'.world == s'.world;
    SameRecordsNamed(s', t', id);
    forall o | o in t'.workers ensures Knows(t'.world, t'.workers[o], Told(d.plane, s, e).told, o) {
      if o != id {
        assert L.Next(s', e).workers[o] == t'.workers[o];
      }
    }
    assert Simulates(t', Told(d.plane, s, e));
  }

  lemma SameRecordsNamed(s: L.System, t: L.System, id: nat)
    requires RecordsNamed(s) && id in s.workers && id in t.workers && t == s.(workers := s.workers[id := t.workers[id]])
    requires t.workers[id].manifest == s.workers[id].manifest
    ensures RecordsNamed(t)
  {
    forall k | k in t.world.keys.gens
      ensures exists o :: o in t.workers && t.workers[o].manifest == t.world.keys.gens[k].value.manifest
    {
      var o :| o in s.workers && s.workers[o].manifest == s.world.keys.gens[k].value.manifest;
      assert t.workers[o].manifest == s.workers[o].manifest;
    }
  }

  lemma EventShadowed(s: L.System, d: Shadow, e: L.Event)
    requires SystemOk(s) && Shadows(s, d) && OneManifestEach(s) && L.Enabled(None, s, e) && !e.LeaseExpires?
    ensures var t := L.Next(s, e); Shadows(t, ShadowNext(d, s, e)) && FollowsMemory(s, d, e, t)
  {
    hide KeysOk, WorkerOk, Simulates, Faithful, L.Step;
    var s' := RestoredSystem(s, d.lapsed);
    match e
    case Act(id, c) => ActShadowed(s, d, id, c);
    case MarkerExpires(k) => MarkerShadowed(s, d, k);
    case Begin(_, _) => RestoredOk(s, d); EventSimulated(s', d.plane, e);
    case Elapse(_) => RestoredOk(s, d); EventSimulated(s', d.plane, e);
    case CleanupExpires(_) => RestoredOk(s, d); EventSimulated(s', d.plane, e);
  }

  /** An expiring marker joins the expired ones; the restored world is the same. */
  lemma MarkerShadowed(s: L.System, d: Shadow, k: GenerationKey)
    requires SystemOk(s) && Shadows(s, d) && L.Enabled(None, s, L.MarkerExpires(k))
    ensures Shadows(L.Next(s, L.MarkerExpires(k)), ShadowNext(d, s, L.MarkerExpires(k)))
  {
    hide KeysOk, WorkerOk, Simulates, LapsedOk;
    MarkerIsCleaned(s.world, k);
    LapsedGrows(s.world.keys.gens, d.lapsed, k);
    var t, x := L.Next(s, L.MarkerExpires(k)), d.lapsed[k := s.world.keys.gens[k]];
    assert RestoredSystem(t, x) == RestoredSystem(s, d.lapsed);
  }

  lemma LapsedGrows(gens: Records, x: Lapsed, k: GenerationKey)
    requires LapsedOk(gens, x) && k in gens && gens[k].value.state == Cleaned
    ensures LapsedOk(gens - {k}, x[k := gens[k]]) && (gens - {k}) + x[k := gens[k]] == gens + x
  {
  }

  lemma MarkerIsCleaned(s: World, k: GenerationKey)
    requires KeysOk(s) && k in s.keys.gens && s.keys.gens[k].volatile
    ensures s.keys.gens[k].value.state == Cleaned
  {
    hide HistoryOk, IndexOk, CleanupsOk, CleanupsComplete, CleanupIndexOk;
  }

  // ---------------------------------------------------------------- whole runs

  /** Any run in which no lease has expired before step `n`. */
  ghost predicate Leased(states: seq<L.System>, events: seq<L.Event>, n: nat) {
    && L.Run(None, states, events) && n <= |events| && OneManifestEach(states[|events|])
    && forall i | 0 <= i < n :: !events[i].LeaseExpires?
  }

  ghost function ShadowAt(states: seq<L.System>, events: seq<L.Event>, i: nat): Shadow
    requires |states| == |events| + 1 && i <= |events|
  {
    if i == 0 then Shadow(StandIn(EMPTY_MEMORY, map[]), map[]) else ShadowNext(ShadowAt(states, events, i - 1), states[i - 1], events[i - 1])
  }

  /** Workers stay, with their manifests. */
  lemma {:induction false} WorkersPersist(states: seq<L.System>, events: seq<L.Event>, i: nat, j: nat)
    requires L.Run(None, states, events) && i <= j < |states|
    ensures forall id | id in states[i].workers ::
              id in states[j].workers && states[j].workers[id].manifest == states[i].workers[id].manifest
    decreases j
  {
    if i < j {
      WorkersPersist(states, events, i, j - 1);
      hide L.Step;
      assert L.Enabled(None, states[j - 1], events[j - 1]) && states[j - 1 + 1] == L.Next(states[j - 1], events[j - 1]);
    }
  }

  lemma {:induction false} RunShadowed(states: seq<L.System>, events: seq<L.Event>, i: nat)
    requires Leased(states, events, i)
    ensures Shadows(states[i], ShadowAt(states, events, i)) && OneManifestEach(states[i])
    ensures i > 0 ==> FollowsMemory(states[i - 1], ShadowAt(states, events, i - 1), events[i - 1], states[i])
  {
    hide Shadows, FollowsMemory, SystemOk, L.Enabled, L.Next, ShadowNext;
    WorkersPersist(states, events, i, |events|);
    if i == 0 {
      NothingShadowed(states[0]);
    } else {
      RunShadowed(states, events, i - 1);
      F.RunKeeps(states, events, i - 1, i - 1);
      EventShadowed(states[i - 1], ShadowAt(states, events, i - 1), events[i - 1]);
    }
  }

  lemma NothingShadowed(s: L.System)
    requires L.Initial(s)
    ensures Shadows(s, Shadow(StandIn(EMPTY_MEMORY, map[]), map[]))
  {
    F.InitialOk(s);
    assert RestoredSystem(s, map[]) == s;
    assert forall item :: !IsActive(s.world, item);
    assert forall c :: !IsPending(s.world, c);
  }

  /** In every run, until a lease expires and whatever else expires or is lost, Redis answers every call of
      every worker as the in-memory plane does and never refuses one, every worker goes on as that answer
      says, and the planes stay related, with these exceptions and no other: a worker without an answer, a
      listing of which a cleanup was completed since, and a recovery whose marker expired. */
  lemma DriverRunsInMemory(states: seq<L.System>, events: seq<L.Event>, i: nat)
    requires Leased(states, events, i) && i < |events|
    ensures var d := ShadowAt(states, events, i);
            && Abstracts(Restored(states[i].world, d.lapsed), d.plane.memory)
            && FollowsMemory(states[i], d, events[i], states[i + 1])
  {
    hide Abstracts, FollowsMemory, LapsedOk;
    RunShadowed(states, events, i);
    if events[i].LeaseExpires? {
      NoWorkerActs(states[i], ShadowAt(states, events, i), events[i], states[i + 1]);
    } else {
      RunShadowed(states, events, i + 1);
    }
  }

  lemma NoWorkerActs(s: L.System, d: Shadow, e: L.Event, t: L.System)
    requires !e.Act?
    ensures FollowsMemory(s, d, e, t)
  {
  }

  /** Why leases: the in-memory plane never lets one expire, so it refuses what Redis then grants. */
  lemma ExpiredLeaseDiffers(s: World, m: Memory, manifest: Manifest, owner: string)
    requires Abstracts(s, m) && manifest.accession in s.keys.leases
    ensures var t := s.(keys := s.keys.(leases := s.keys.leases - {manifest.accession}));
            && RedisCall(t, AcquireCall(manifest, owner)).1 == Granted(Some(AccessionLease(manifest.accession, owner)))
            && MemoryCall(m, AcquireCall(manifest, owner)).1 == Granted(None)
  {
    hide KeysOk, ActiveAgrees, StagesAgree, PendingAgrees;
    var a := manifest.accession;
    assert AccessionLease(a, s.keys.leases[a].owner) in m.leases;
  }
}
