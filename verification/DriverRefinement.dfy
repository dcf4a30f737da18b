/** The driver on the in-memory plane. However its workers interleave and whatever commands and replies are
    lost, the plane that makes the workers' calls one by one gives each worker the answer the Redis commands
    give it, although a read is two commands, and the worker does what the answer says. The one difference:
    a listing fails closed exactly when a listed cleanup was completed between its two commands. Here one
    event, with nothing expired that the in-memory plane still has; `DriverRuns` has the runs. */
module DriverRefinement {
  import opened Domain
  import opened RedisKeys
  import opened MemoryControl
  import opened Fencing
  import opened PendingListing
  import opened Refinement
  import L = Lifecycle
  import F = FencedRuns
  import Frame = StepFrame

  // ---------------------------------------------------------------- the stand-in

  /** The phases whose command goes to the control plane, not to the vector store or the embedder. */
  ghost predicate Control(p: L.Phase) {
    !p.Embed? && !p.Upsert? && !p.Verify? && !p.CleanupDelete? && !p.AbortDelete? && !p.RecoveryInspect? && !p.Finished?
  }

  /** A generation ID is a digest of its manifest's content: workers with one ID have one manifest. */
  ghost predicate OneManifestEach(s: L.System) {
    forall i, j | i in s.workers && j in s.workers && s.workers[i].manifest.gen == s.workers[j].manifest.gen ::
      s.workers[i].manifest == s.workers[j].manifest
  }

  /** The in-memory plane, and the last answer each worker got from it. */
  datatype StandIn = StandIn(memory: Memory, told: map<nat, Answer>)

  /** A dropped command is a call not made; when a reply is lost the call is made and its worker not told. */
  ghost function Told(d: StandIn, s: L.System, e: L.Event): StandIn {
    if e.Act? && e.id in s.workers && CallOf(s.workers[e.id]).Some? && e.choice.fate != Dropped then
      var reply := MemoryCall(d.memory, CallOf(s.workers[e.id]).value);
      StandIn(reply.0, if e.choice.fate == Delivered then d.told[e.id := reply.1] else d.told)
    else d
  }

  /** The driver's control flow as a relation between a worker, the last answer of the plane, and the
      worker after the command. */
  ghost predicate Reacts(w: L.Worker, answer: Answer, v: L.Worker) {
    match w.phase
    case Acquire => answer.Granted? && v == w.(phase := if answer.lease.Some? then L.ReadActive else L.Finished)
    case ReadActive =>
      && answer.ActiveAnswer?
      && v == if answer.manifest.None? then L.AfterActive(w, None) else w.(phase := L.ReadActiveRecord(answer.manifest.value.gen))
    case ReadActiveRecord(_) => answer.ActiveAnswer? && answer.manifest.Some? && v == L.AfterActive(w, answer.manifest)
    case RecoveryList => ListReaction(w, answer, v, v.phase.RecoveryLoad?, L.RecoveryStage)
    case RecoveryLoad(_) =>
      && answer.CleanupList?
      && v == if Own(answer.cleanups, w.Filing()) == {} then w.(phase := L.RecoveryStage) else w.Fail()
    case RecoveryStage =>
      && answer.StageAnswer?
      && v == if answer.stage.Some? && answer.stage.value.state == Cleaned then w.(phase := L.RecoveryInspect) else w.Fail()
    case Stage => answer.StageAnswer? && v == if answer.stage.Some? then w.(stage := answer.stage, phase := L.Embed) else w.Fail()
    case MarkVerified =>
      answer.StageAnswer? && v == if answer.stage.Some? then w.(stage := answer.stage, phase := L.Publish) else w.Fail()
    case Publish =>
      answer.Flag? && v == if answer.done then w.(published := true, phase := L.CleanupList) else w.(phase := L.ConfirmActive)
    case ConfirmActive =>
      && answer.ActiveAnswer?
      && v == if answer.manifest.None? then w.Fail() else w.(phase := L.ConfirmRecord(answer.manifest.value.gen))
    case ConfirmRecord(_) =>
      && answer.ActiveAnswer?
      && v == if answer.manifest == Some(w.manifest) then w.(phase := L.CleanupList) else w.Fail()
    case CleanupList => ListReaction(w, answer, v, v.phase.CleanupLoad?, L.Release)
    case CleanupLoad(_) =>
      answer.CleanupList? && exists todo :: Elements(todo) == Own(answer.cleanups, w.Filing()) && v == L.NextCleanup(w, todo)
    case CleanupMark(todo) => answer.CleanupAnswer? && todo != [] && v == L.NextCleanup(w, todo[1..])
    case AbortStage =>
      && answer.StageAnswer?
      && v == if answer.stage.None? then w.(phase := L.Release)
              else if w.current.None? || w.current.value.gen != w.manifest.gen then w.(phase := L.AbortDelete(answer.stage.value))
              else w.(phase := L.AbortClean(answer.stage.value))
    case AbortClean(_) => answer.StageAnswer? && v == w.(phase := L.Release)
    case Release => answer.Flag? && v == w.(phase := L.Finished)
    case _ => true
  }

  /** What a worker does when its command is not answered, or fails closed. */
  function Unanswered(w: L.Worker): L.Worker {
    match w.phase
    case Acquire => w.(phase := L.Finished)
    case CleanupList => w.(phase := L.Release)
    case CleanupLoad(_) => w.(phase := L.Release)
    case CleanupMark(todo) => if todo == [] then w.(phase := L.Release) else L.NextCleanup(w, todo[1..])
    case AbortStage => w.(phase := L.Release)
    case AbortClean(_) => w.(phase := L.Release)
    case Release => w.(phase := L.Finished)
    case _ => w.Fail()
  }

  ghost function Own(cleanups: set<CleanupRecord>, a: Accession): set<CleanupRecord> {
    set c | c in cleanups && c.superseded.accession == a
  }

  /** An empty list ends the read; otherwise its members are loaded next. */
  ghost predicate ListReaction(w: L.Worker, answer: Answer, v: L.Worker, loads: bool, done: L.Phase) {
    && answer.CleanupList? && v == w.(phase := v.phase)
    && (if answer.cleanups == {} then v.phase == done else loads)
  }

  // ---------------------------------------------------------------- what is known between the two commands of a read

  ghost predicate ActiveKnown(s: World, a: Accession, answer: Answer, gen: string) {
    && answer.ActiveAnswer? && answer.manifest.Some?
    && answer.manifest.value.accession == a && answer.manifest.value.gen == gen
    && PublishedAs(s.keys.gens, answer.manifest.value)
  }

  /** The listed keys are those of the answered records, and each was superseded. */
  ghost predicate ListKnown(s: World, scope: Scope, answer: Answer, keys: seq<CleanupKey>) {
    && answer.CleanupList?
    && (forall c | c in answer.cleanups ::
          c.Key() in keys && c.superseded.accession.scope == scope && CleanupKnown(s, c.superseded.accession, c))
    && (forall k | k in keys :: exists c :: c in answer.cleanups && c.Key() == k)
  }

  ghost predicate Knows(s: World, w: L.Worker, told: map<nat, Answer>, id: nat) {
    match w.phase
    case ReadActiveRecord(gen) => id in told && ActiveKnown(s, w.Filing(), told[id], gen)
    case ConfirmRecord(gen) => id in told && ActiveKnown(s, w.Filing(), told[id], gen)
    case RecoveryLoad(keys) => id in told && ListKnown(s, w.Filing().scope, told[id], keys)
    case CleanupLoad(keys) => id in told && ListKnown(s, w.Filing().scope, told[id], keys)
    case _ => true
  }

  /** Every record is one of a worker's own manifest. */
  ghost predicate RecordsNamed(s: L.System) {
    forall k | k in s.world.keys.gens :: exists id :: id in s.workers && s.workers[id].manifest == s.world.keys.gens[k].value.manifest
  }

  ghost predicate AllKnow(s: L.System, told: map<nat, Answer>) {
    forall id | id in s.workers :: Knows(s.world, s.workers[id], told, id)
  }

  ghost predicate Simulates(s: L.System, d: StandIn) {
    Abstracts(s.world, d.memory) && RecordsNamed(s) && AllKnow(s, d.told)
  }

  // ---------------------------------------------------------------- one call

  lemma OwnRecordNamed(s: L.System, w: L.Worker, id: nat)
    requires KeysOk(s.world) && RecordsNamed(s) && OneManifestEach(s) && id in s.workers && s.workers[id] == w
    ensures forall k | k in s.world.keys.gens && k.gen == w.manifest.gen :: s.world.keys.gens[k].value.manifest == w.manifest
  {
    hide HistoryOk, IndexOk, CleanupsOk, CleanupsComplete, CleanupIndexOk;
    forall k | k in s.world.keys.gens && k.gen == w.manifest.gen ensures s.world.keys.gens[k].value.manifest == w.manifest {
      var o :| o in s.workers && s.workers[o].manifest == s.world.keys.gens[k].value.manifest;
      assert KeyOf(s.workers[o].manifest) == k;
    }
  }

  /** Keys and histories are what the relation is about. */
  lemma AbstractsOther(s: World, t: World, m: Memory)
    requires Abstracts(s, m) && t.keys == s.keys && t.history == s.history && t.cleaned == s.cleaned
    ensures Abstracts(t, m)
  {
    assert forall item :: IsActive(t, item) <==> IsActive(s, item);
    assert forall c :: IsPending(t, c) <==> IsPending(s, c);
  }

  /** A delivered control command changes Redis as the call changes the in-memory plane. */
  lemma CallSimulated(s: World, m: Memory, w: L.Worker, c: L.Choice)
    requires Abstracts(s, m) && WorkerOk(s, w) && CallOf(w).Some? && Disciplined(s, CallOf(w).value) && c.fate == Delivered
    ensures Agrees(s, m, CallOf(w).value)
    ensures Abstracts(L.Step(s, w, c).world, MemoryCall(m, CallOf(w).value).0)
  {
    hide WorkerOk, Abstracts, Disciplined, RedisCall, MemoryCall, L.Step;
    CallAgrees(s, m, CallOf(w).value);
    if w.phase.Acquire? {
      AcquireSimulated(s, m, w, c);
    } else if Writes(w.phase) {
      DeliveredStepIsCall(s, w, c);
    } else {
      ReadChangesNothing(s, m, w, c);
    }
  }

  lemma AcquireSimulated(s: World, m: Memory, w: L.Worker, c: L.Choice)
    requires Abstracts(s, m) && w.phase.Acquire? && c.fate == Delivered
    requires Agrees(s, m, AcquireCall(w.manifest, w.owner))
    ensures Abstracts(L.Step(s, w, c).world, MemoryCall(m, AcquireCall(w.manifest, w.owner)).0)
  {
    hide KeysOk, ActiveAgrees, StagesAgree, PendingAgrees, L.LeaseSeconds;
    var t, n := L.StepAcquire(s, w, c).world, MemoryCall(m, AcquireCall(w.manifest, w.owner)).0;
    if w.Filing() in s.keys.leases {
      assert t == s;
    } else {
      OnlyLeasesChange(s, t.keys.leases, m, n);
    }
  }

  lemma ReadChangesNothing(s: World, m: Memory, w: L.Worker, c: L.Choice)
    requires CallOf(w).Some? && !w.phase.Acquire? && !Writes(w.phase)
    requires Agrees(s, m, CallOf(w).value)
    ensures Abstracts(L.Step(s, w, c).world, MemoryCall(m, CallOf(w).value).0)
  {
    hide Abstracts, L.LoadPending, L.ForFiling, L.ActiveRecordAccepted;
    assert L.Step(s, w, c).world == s;
  }

  // ---------------------------------------------------------------- the worker does what the answer says

  /** The worker reacts to the answer, and knows what it needs for the second command of a read. */
  ghost predicate Reacted(s: World, w: L.Worker, c: L.Choice)
    requires CallOf(w).Some?
  {
    var answer, e := RedisCall(s, CallOf(w).value).1, L.Step(s, w, c);
    Reacts(w, answer, e.worker) && forall told, id: nat | id in told && told[id] == answer :: Knows(e.world, e.worker, told, id)
  }

  /** The first command of a read, or a call of one command. */
  lemma CallReaction(s: World, w: L.Worker, c: L.Choice)
    requires KeysOk(s) && WorkerOk(s, w) && CallOf(w).Some? && c.fate == Delivered
    requires Disciplined(s, CallOf(w).value) && RedisCall(s, CallOf(w).value).1 != Unavailable
    requires w.phase.RecoveryList? || w.phase.CleanupList? ==> L.Enumerates(c.order, Members(s.keys.cleanupIndex, w.Filing().scope))
    ensures Reacted(s, w, c)
  {
    hide KeysOk, WorkerOk, Reacted, RedisCall, L.Step, Disciplined;
    match w.phase
    case ReadActive => ActiveReaction(s, w, c);
    case ConfirmActive => ActiveReaction(s, w, c);
    case RecoveryList => ListingReaction(s, w, c);
    case CleanupList => ListingReaction(s, w, c);
    case _ => OneCommandReaction(s, w, c);
  }

  lemma ActiveReaction(s: World, w: L.Worker, c: L.Choice)
    requires KeysOk(s) && (w.phase.ReadActive? || w.phase.ConfirmActive?) && c.fate == Delivered
    requires RedisCall(s, CallOf(w).value).1 != Unavailable
    ensures Reacted(s, w, c)
  {
    hide KeysOk, PublishedAs;
    if w.Filing() in s.keys.active {
      F.ActivePointerAccepted(s, w.Filing());
      F.PublishedIsProven(s, GenerationKey(w.Filing(), s.keys.active[w.Filing()]));
    }
  }

  lemma ListingReaction(s: World, w: L.Worker, c: L.Choice)
    requires KeysOk(s) && (w.phase.RecoveryList? || w.phase.CleanupList?) && c.fate == Delivered
    requires L.Enumerates(c.order, Members(s.keys.cleanupIndex, w.Filing().scope))
    requires RedisCall(s, CallOf(w).value).1 != Unavailable
    ensures Reacted(s, w, c)
  {
    hide KeysOk, RedisCall, ListKnown, L.Enumerates;
    ListAnswered(s, w.Filing().scope, c.order);
  }

  /** The listed keys stand for the answered records. */
  lemma ListAnswered(s: World, scope: Scope, order: seq<CleanupKey>)
    requires KeysOk(s) && L.Enumerates(order, Members(s.keys.cleanupIndex, scope))
    requires RedisCall(s, ListPendingCall(scope)).1 != Unavailable
    ensures var answer := RedisCall(s, ListPendingCall(scope)).1;
            answer.CleanupList? && ListKnown(s, scope, answer, order) && (order == [] <==> answer.cleanups == {})
  {
    hide KeysOk, Distinct, Members, CleanupKnown;
    var members := Members(s.keys.cleanupIndex, scope);
    var answer := RedisCall(s, ListPendingCall(scope)).1;
    forall k | k in members ensures L.PendingAccepted(s.keys, scope, k) && k in order && s.keys.cleanups[k].value in answer.cleanups {
      assert k in (set x | x in order);
    }
    forall k | k in order ensures k in members && s.keys.cleanups[k].value in answer.cleanups && s.keys.cleanups[k].value.Key() == k {
      assert k in (set x | x in order);
    }
    forall c | c in answer.cleanups
      ensures c.Key() in order && c.superseded.accession.scope == scope && CleanupKnown(s, c.superseded.accession, c)
    {
      var k :| k in members && k in s.keys.cleanups && c == s.keys.cleanups[k].value;
      PendingIsKnown(s, k);
    }
    assert order != [] ==> order[0] in order;
  }

  lemma PendingIsKnown(s: World, k: CleanupKey)
    requires KeysOk(s) && k in s.keys.cleanups && s.keys.cleanups[k].value.state == Pending
    ensures CleanupKnown(s, s.keys.cleanups[k].value.superseded.accession, s.keys.cleanups[k].value)
  {
    hide RecordsOk, HistoryOk, IndexOk, CleanupsComplete, CleanupIndexOk, Follows;
    assert CleanupOk(s.keys.gens, s.history, s.cleaned, k, s.keys.cleanups[k]);
  }

  lemma OneCommandReaction(s: World, w: L.Worker, c: L.Choice)
    requires WorkerOk(s, w) && CallOf(w).Some? && c.fate == Delivered
    requires !w.phase.ReadActive? && !w.phase.ConfirmActive? && !w.phase.RecoveryList? && !w.phase.CleanupList?
    requires Disciplined(s, CallOf(w).value) && RedisCall(s, CallOf(w).value).1 != Unavailable
    ensures Reacted(s, w, c)
  {
    hide WorkerOk, Reacted, RedisCall, L.Step, Disciplined;
    match w.phase
    case Publish => PublishReaction(s, w, c);
    case CleanupMark(_) => MarkReaction(s, w, c);
    case AbortStage => AbortReaction(s, w, c);
    case AbortClean(_) => AbortReaction(s, w, c);
    case Acquire => LeaseReaction(s, w, c);
    case Release => LeaseReaction(s, w, c);
    case _ => StageReaction(s, w, c);
  }

  lemma LeaseReaction(s: World, w: L.Worker, c: L.Choice)
    requires (w.phase.Acquire? || w.phase.Release?) && c.fate == Delivered
    ensures Reacted(s, w, c)
  {
    hide LeaseReleaseScript, L.LeaseSeconds;
  }

  lemma StageReaction(s: World, w: L.Worker, c: L.Choice)
    requires (w.phase.Stage? || w.phase.MarkVerified? || w.phase.RecoveryStage?) && c.fate == Delivered
    requires RedisCall(s, CallOf(w).value).1 != Unavailable
    ensures Reacted(s, w, c)
  {
    hide SwapScript, StageScript;
  }

  lemma PublishReaction(s: World, w: L.Worker, c: L.Choice)
    requires w.phase.Publish? && c.fate == Delivered
    requires RedisCall(s, CallOf(w).value).1 != Unavailable
    ensures Reacted(s, w, c)
  {
    hide PublishScript;
  }

  lemma MarkReaction(s: World, w: L.Worker, c: L.Choice)
    requires w.phase.CleanupMark? && CallOf(w).Some? && c.fate == Delivered
    requires RedisCall(s, CallOf(w).value).1 != Unavailable
    ensures Reacted(s, w, c)
  {
    hide CleanSupersededScript;
  }

  lemma AbortReaction(s: World, w: L.Worker, c: L.Choice)
    requires (w.phase.AbortStage? || w.phase.AbortClean?) && CallOf(w).Some? && c.fate == Delivered
    requires RedisCall(s, CallOf(w).value).1 != Unavailable && WorkerOk(s, w)
    ensures Reacted(s, w, c)
  {
    hide SwapScript, PublishedAs, BeforeStaging;
  }

  /** A listed cleanup was completed since. */
  ghost predicate Overtaken(s: World, w: L.Worker) {
    Listing(w.phase) && exists k :: k in w.phase.keys && Completed(s, k)
  }

  /** The second command of a read. */
  lemma LoadReaction(s: World, w: L.Worker, c: L.Choice, told: map<nat, Answer>, id: nat)
    requires Control(w.phase) && CallOf(w).None? && KeysOk(s) && WorkerOk(s, w) && c.fate == Delivered && Knows(s, w, told, id)
    ensures var v := L.Step(s, w, c).worker;
            id in told && if Overtaken(s, w) then v == Unanswered(w) else Reacts(w, told[id], v)
    ensures L.Step(s, w, c).world == s && forall other :: Knows(s, L.Step(s, w, c).worker, told, other)
  {
    IsLoad(s, w);
    hide CallOf, KeysOk, WorkerOk, Reacts, L.Step, Knows;
    if Listing(w.phase) {
      ListLoadReaction(s, w, c, told, id);
    } else {
      RecordReaction(s, w, c, told, id);
    }
  }

  lemma IsLoad(s: World, w: L.Worker)
    requires Control(w.phase) && CallOf(w).None? && WorkerOk(s, w)
    ensures Listing(w.phase) || w.phase.ReadActiveRecord? || w.phase.ConfirmRecord?
  {
  }

  lemma RecordReaction(s: World, w: L.Worker, c: L.Choice, told: map<nat, Answer>, id: nat)
    requires (w.phase.ReadActiveRecord? || w.phase.ConfirmRecord?) && c.fate == Delivered && Knows(s, w, told, id)
    ensures id in told && Reacts(w, told[id], L.Step(s, w, c).worker) && L.Step(s, w, c).world == s
    ensures forall other :: Knows(s, L.Step(s, w, c).worker, told, other)
  {
  }

  lemma ListLoadReaction(s: World, w: L.Worker, c: L.Choice, told: map<nat, Answer>, id: nat)
    requires Listing(w.phase) && KeysOk(s) && c.fate == Delivered && Knows(s, w, told, id)
    ensures var v := L.Step(s, w, c).worker;
            id in told && if Overtaken(s, w) then v == Unanswered(w) else Reacts(w, told[id], v)
    ensures L.Step(s, w, c).world == s && forall other :: Knows(s, L.Step(s, w, c).worker, told, other)
  {
    hide L.LoadPending, L.ForFiling, KeysOk, ListKnown, Completed;
    LoadsListed(s, w, told[id], w.phase.keys);
  }

  /** Loading fails closed exactly when overtaken, and otherwise finds exactly the records of the answer. */
  lemma LoadsListed(s: World, w: L.Worker, answer: Answer, keys: seq<CleanupKey>)
    requires KeysOk(s) && ListKnown(s, w.Filing().scope, answer, keys)
    ensures var records := L.LoadPending(s.keys, w.Filing().scope, keys);
            && (records.None? <==> exists k :: k in keys && Completed(s, k))
            && answer.CleanupList?
            && (records.Some? ==>
                  var own := L.ForFiling(records.value, w.Filing());
                  Elements(own) == Own(answer.cleanups, w.Filing()) && (own == [] <==> Own(answer.cleanups, w.Filing()) == {}))
  {
    hide KeysOk, L.LoadPending, L.ForFiling, Completed, L.PendingAccepted, Follows, PublishedAs;
    var scope := w.Filing().scope;
    forall k | k in keys ensures L.PendingAccepted(s.keys, scope, k) <==> !Completed(s, k) {
      var c :| c in answer.cleanups && c.Key() == k;
      PendingUntilCompleted(s, scope, k);
    }
    if L.LoadPending(s.keys, scope, keys).Some? {
      var records := L.LoadPending(s.keys, scope, keys).value;
      forall c | c in answer.cleanups ensures c in records {
        PendingIs(s, scope, c);
      }
      forall c | c in records ensures c in answer.cleanups {
        var o :| o in answer.cleanups && o.Key() == c.Key();
        PendingIs(s, scope, o);
      }
      var own := L.ForFiling(records, w.Filing());
      assert own != [] ==> own[0] in Own(answer.cleanups, w.Filing());
      assert forall c | c in Own(answer.cleanups, w.Filing()) :: c in own;
    }
  }

  /** The record stored for a known supersession, while it is PENDING. */
  lemma PendingIs(s: World, scope: Scope, c: CleanupRecord)
    requires KeysOk(s) && CleanupKnown(s, c.superseded.accession, c) && L.PendingAccepted(s.keys, scope, c.Key())
    ensures c.Key() in s.keys.cleanups && s.keys.cleanups[c.Key()].value == c
  {
    hide RecordsOk, HistoryOk, IndexOk, CleanupsComplete, CleanupIndexOk, Follows;
    assert CleanupOk(s.keys.gens, s.history, s.cleaned, c.Key(), s.keys.cleanups[c.Key()]);
  }

  // ---------------------------------------------------------------- a command that is not answered

  lemma UnansweredStep(s: World, w: L.Worker, c: L.Choice)
    requires WorkerOk(s, w) && Control(w.phase) && c.fate != Delivered
    ensures L.Step(s, w, c).worker == Unanswered(w)
  {
    hide WorkerOk, L.Step, Unanswered;
    NeedsStage(s, w);
    if w.phase.AbortStage? || w.phase.CleanupMark? || Frame.WritesLease(w.phase) || w.phase.AbortClean? {
      UnansweredWrite(s, w, c);
    } else {
      UnansweredOther(s, w, c);
    }
  }

  lemma NeedsStage(s: World, w: L.Worker)
    requires WorkerOk(s, w)
    ensures (w.phase.AbortStage? ==> w.stage.Some?) && (w.phase.CleanupMark? ==> w.phase.todo != [])
  {
  }

  lemma UnansweredWrite(s: World, w: L.Worker, c: L.Choice)
    requires (w.phase.AbortStage? && w.stage.Some?) || w.phase.CleanupMark? || w.phase.AbortClean? || Frame.WritesLease(w.phase)
    requires c.fate != Delivered
    ensures L.Step(s, w, c).worker == Unanswered(w)
  {
    hide SwapScript, CleanSupersededScript, LeaseReleaseScript, L.LeaseSeconds;
  }

  lemma UnansweredOther(s: World, w: L.Worker, c: L.Choice)
    requires Control(w.phase) && c.fate != Delivered
    requires !w.phase.AbortStage? && !w.phase.CleanupMark? && !w.phase.AbortClean? && !Frame.WritesLease(w.phase)
    ensures L.Step(s, w, c).worker == Unanswered(w)
  {
    hide L.PublishReply, SwapScript, StageScript, L.LoadPending, L.ForFiling, L.ActiveRecordAccepted;
  }

  lemma UnansweredKnows(s: World, w: L.Worker, told: map<nat, Answer>, id: nat)
    ensures Knows(s, Unanswered(w), told, id)
  {
  }

  /** A command whose reply is lost has the effect it has when it is answered. */
  lemma ReplyLostEffect(s: World, w: L.Worker, c: L.Choice)
    requires Control(w.phase) && c.fate == ReplyLost
    ensures L.Step(s, w, c).world == L.Step(s, w, c.(fate := Delivered)).world
  {
    hide L.PublishReply, SwapScript, StageScript, CleanSupersededScript, LeaseReleaseScript, L.LoadPending, L.ForFiling,
         L.ActiveRecordAccepted, L.LeaseSeconds;
  }

  lemma DroppedEffect(s: World, w: L.Worker, c: L.Choice, m: Memory)
    requires c.fate == Dropped && Abstracts(s, m)
    ensures Abstracts(L.Step(s, w, c).world, m)
  {
    hide L.Step, Abstracts;
    Frame.OnlyWritesWrite(s, w, c);
    AbstractsOther(s, L.Step(s, w, c).world, m);
  }

  // ---------------------------------------------------------------- other workers disturb none of this

  /** Records are kept, or of manifest `m`. */
  ghost predicate RecordsOf(k: Keys, k': Keys, m: Manifest) {
    forall g | g in k'.gens :: (g in k.gens && k'.gens[g] == k.gens[g]) || k'.gens[g].value.manifest == m
  }

  lemma RecordWritten(k: Keys, k': Keys, g: GenerationKey, kept: Kept<Record>)
    requires k'.gens == k.gens || k'.gens == k.gens[g := kept]
    ensures RecordsOf(k, k', kept.value.manifest)
  {
  }

  lemma StageRecords(k: Keys, a: Accession, owner: string, m: Manifest)
    ensures RecordsOf(k, k, m) && RecordsOf(k, StageScript(k, a, owner, m).keys, m)
  {
    hide RecordsOf, RecoverableRecords;
    RecordWritten(k, k, GenerationKey(a, m.gen), Kept(StagedRecord(m), false));
    RecordWritten(k, StageScript(k, a, owner, m).keys, GenerationKey(a, m.gen), Kept(StagedRecord(m), false));
  }

  lemma SwapRecords(k: Keys, a: Accession, owner: string, from: Record, to: Record, volatile: bool)
    ensures RecordsOf(k, k, to.manifest) && RecordsOf(k, SwapScript(k, a, owner, from, to, volatile).keys, to.manifest)
  {
    hide RecordsOf;
    RecordWritten(k, k, GenerationKey(a, from.manifest.gen), Kept(to, volatile));
    RecordWritten(k, SwapScript(k, a, owner, from, to, volatile).keys, GenerationKey(a, from.manifest.gen), Kept(to, volatile));
  }

  lemma PublishRecords(s: World, w: L.Worker)
    ensures RecordsOf(s.keys, s.keys, w.manifest) && RecordsOf(s.keys, L.PublishReply(s, w).keys, w.manifest)
  {
    hide RecordsOf, Added;
    RecordWritten(s.keys, s.keys, KeyOf(w.manifest), Kept(PublishedRecord(w.manifest), false));
    RecordWritten(s.keys, L.PublishReply(s, w).keys, KeyOf(w.manifest), Kept(PublishedRecord(w.manifest), false));
  }

  /** A command writes only records of its worker's own manifest. */
  lemma OwnRecordWritten(s: World, w: L.Worker, c: L.Choice)
    requires WorkerOk(s, w)
    ensures RecordsOf(s.keys, L.Step(s, w, c).world.keys, w.manifest)
  {
    hide Distinct, PublishedAs, RecordsOf, StageScript, SwapScript, L.PublishReply, AllCleanupsKnown, BeforeStaging;
    var k, a, m := s.keys, w.Filing(), w.manifest;
    match w.phase
    case Stage => StageRecords(k, a, w.owner, m);
    case MarkVerified => SwapRecords(k, a, w.owner, StagedRecord(m), VerifiedRecord(m), false);
    case Publish => PublishRecords(s, w);
    case AbortStage => SwapRecords(k, a, w.owner, w.stage.value, w.stage.value.WithState(Aborted), false);
    case AbortClean(r) => SwapRecords(k, a, w.owner, r, r.WithState(Cleaned), true);
    case _ => RecordsUnwritten(s, w, c);
  }

  lemma RecordsUnwritten(s: World, w: L.Worker, c: L.Choice)
    requires WorkerOk(s, w) && !Frame.WritesGeneration(w.phase)
    ensures RecordsOf(s.keys, L.Step(s, w, c).world.keys, w.manifest)
  {
    Frame.KeysWritten(s, w, c);
    hide L.Step, Frame.WithinFiling, WorkerOk;
  }

  lemma KnowsStable(s: World, t: World, w: L.Worker, told: map<nat, Answer>, id: nat)
    requires Knows(s, w, told, id) && Evolves(s, t)
    ensures Knows(t, w, told, id)
  {
    hide Follows, PublishedAs;
    match w.phase
    case RecoveryLoad(keys) => ListKnownStable(s, t, w.Filing().scope, told[id], keys);
    case CleanupLoad(keys) => ListKnownStable(s, t, w.Filing().scope, told[id], keys);
    case ReadActiveRecord(gen) => ActiveKnownStable(s, t, w.Filing(), told[id], gen);
    case ConfirmRecord(gen) => ActiveKnownStable(s, t, w.Filing(), told[id], gen);
    case _ =>
  }

  lemma ActiveKnownStable(s: World, t: World, a: Accession, answer: Answer, gen: string)
    requires ActiveKnown(s, a, answer, gen) && Evolves(s, t)
    ensures ActiveKnown(t, a, answer, gen)
  {
  }

  lemma ListKnownStable(s: World, t: World, scope: Scope, answer: Answer, keys: seq<CleanupKey>)
    requires ListKnown(s, scope, answer, keys) && Evolves(s, t)
    ensures ListKnown(t, scope, answer, keys)
  {
    hide Evolves, CleanupKnown;
    forall c | c in answer.cleanups ensures CleanupKnown(t, c.superseded.accession, c) {
      CleanupKnownStable(s, t, c.superseded.accession, c);
    }
  }

  // ---------------------------------------------------------------- one event

  /** What one event shows: both planes would answer the worker's call alike, and never by a
      refusal; an unanswered worker does what it does unanswered, a worker whose listing was overtaken does
      the same, and any other does what the last answer of the in-memory plane says. */
  ghost predicate Faithful(s: L.System, d: StandIn, e: L.Event, t: L.System) {
    e.Act? && e.id in s.workers ==>
      var w, told := s.workers[e.id], Told(d, s, e).told;
      && e.id in t.workers
      && (CallOf(w).Some? ==> RedisCall(s.world, CallOf(w).value).1 == MemoryCall(d.memory, CallOf(w).value).1 != Unavailable)
      && (Control(w.phase) ==>
            if e.choice.fate != Delivered || Overtaken(s.world, w) then t.workers[e.id] == Unanswered(w)
            else e.id in told && Reacts(w, told[e.id], t.workers[e.id]))
  }

  ghost predicate ActedOn(s: L.System, d: StandIn, e: L.Event, t: L.System) {
    && e.Act? && e.id in s.workers && e.id in t.workers
    && Abstracts(t.world, Told(d, s, e).memory)
    && Knows(t.world, t.workers[e.id], Told(d, s, e).told, e.id)
    && Faithful(s, d, e, t)
  }

  lemma WorkerActs(s: L.System, d: StandIn, id: nat, c: L.Choice)
    requires SystemOk(s) && Simulates(s, d) && OneManifestEach(s) && L.Enabled(None, s, L.Act(id, c))
    ensures ActedOn(s, d, L.Act(id, c), L.Next(s, L.Act(id, c)))
  {
    hide KeysOk, WorkerOk, Abstracts, RecordsNamed, OneManifestEach, CallOf;
    var w := s.workers[id];
    if CallOf(w).Some? {
      AbstractsParts(s.world, d.memory);
      OwnRecordNamed(s, w, id);
      WorkerIsDisciplined(s.world, w);
      CallActs(s, d, id, c);
    } else {
      NoCallActs(s, d, id, c);
    }
  }

  lemma CallActs(s: L.System, d: StandIn, id: nat, c: L.Choice)
    requires SystemOk(s) && Abstracts(s.world, d.memory) && L.Enabled(None, s, L.Act(id, c))
    requires CallOf(s.workers[id]).Some? && Disciplined(s.world, CallOf(s.workers[id]).value)
    ensures ActedOn(s, d, L.Act(id, c), L.Next(s, L.Act(id, c)))
  {
    hide KeysOk, WorkerOk, Abstracts, Reacts, RedisCall, MemoryCall, L.Step, Disciplined, Knows, L.Enumerates, Control, Unanswered,
         CallOf;
    var w := s.workers[id];
    var answered := c.(fate := Delivered);
    CallIsControl(w);
    CallSimulated(s.world, d.memory, w, answered);
    match c.fate
    case Delivered =>
      assert answered == c;
      CallReaction(s.world, w, c);
    case ReplyLost =>
      ReplyLostEffect(s.world, w, c);
      UnansweredStep(s.world, w, c);
      UnansweredKnows(L.Step(s.world, w, c).world, w, d.told, id);
    case Dropped =>
      DroppedEffect(s.world, w, c, d.memory);
      UnansweredStep(s.world, w, c);
      UnansweredKnows(L.Step(s.world, w, c).world, w, d.told, id);
  }

  lemma AbstractsParts(s: World, m: Memory)
    requires Abstracts(s, m)
    ensures KeysOk(s)
  {
  }

  lemma CallIsControl(w: L.Worker)
    requires CallOf(w).Some?
    ensures Control(w.phase) && !Listing(w.phase)
  {
  }

  lemma NoCallActs(s: L.System, d: StandIn, id: nat, c: L.Choice)
    requires SystemOk(s) && Simulates(s, d) && L.Enabled(None, s, L.Act(id, c)) && CallOf(s.workers[id]).None?
    ensures ActedOn(s, d, L.Act(id, c), L.Next(s, L.Act(id, c)))
  {
    hide KeysOk, WorkerOk, Abstracts, RecordsNamed, Reacts, L.Step, Knows, Control, Unanswered, Overtaken, CallOf, L.Enumerates;
    var w := s.workers[id];
    if Control(w.phase) && c.fate == Delivered {
      LoadReaction(s.world, w, c, d.told, id);
    } else if Control(w.phase) {
      UnansweredStep(s.world, w, c);
      LoadWritesNothing(s.world, w, c);
      UnansweredKnows(s.world, w, d.told, id);
    } else {
      VectorStep(s.world, w, c);
      AbstractsOther(s.world, L.Step(s.world, w, c).world, d.memory);
      NoReadStarts(s.world, w, c, d.told, id);
    }
  }

  lemma LoadWritesNothing(s: World, w: L.Worker, c: L.Choice)
    requires Control(w.phase) && CallOf(w).None? && WorkerOk(s, w)
    ensures L.Step(s, w, c).world == s
  {
    IsLoad(s, w);
    hide WorkerOk, CallOf, L.LoadPending, L.ForFiling, L.ActiveRecordAccepted;
  }

  lemma VectorStep(s: World, w: L.Worker, c: L.Choice)
    requires !Control(w.phase)
    ensures var t := L.Step(s, w, c).world; t.keys == s.keys && t.history == s.history && t.cleaned == s.cleaned
  {
  }

  lemma NoReadStarts(s: World, w: L.Worker, c: L.Choice, told: map<nat, Answer>, id: nat)
    requires !Control(w.phase)
    ensures var e := L.Step(s, w, c); Knows(e.world, e.worker, told, id)
  {
  }

  lemma ActSimulated(s: L.System, d: StandIn, id: nat, c: L.Choice)
    requires SystemOk(s) && Simulates(s, d) && OneManifestEach(s) && L.Enabled(None, s, L.Act(id, c))
    ensures var e := L.Act(id, c); var t := L.Next(s, e); Simulates(t, Told(d, s, e)) && Faithful(s, d, e, t)
  {
    hide KeysOk, WorkerOk, Abstracts, OneManifestEach, Reacts, RedisCall, MemoryCall, L.Step, Knows, L.Enumerates, Control,
         Evolves, CallOf, Faithful;
    WorkerActs(s, d, id, c);
    var w := s.workers[id];
    var e := L.Act(id, c);
    var t := L.Next(s, e);
    F.StepKeeps(s.world, w, c);
    OwnRecordWritten(s.world, w, c);
    forall o | o in t.workers ensures Knows(t.world, t.workers[o], Told(d, s, e).told, o) {
      if o != id {
        OtherKnows(s, d, id, c, o);
      }
    }
    forall k | k in t.world.keys.gens
      ensures exists o :: o in t.workers && t.workers[o].manifest == t.world.keys.gens[k].value.manifest
    {
      if k in s.world.keys.gens && t.world.keys.gens[k] == s.world.keys.gens[k] {
        var o :| o in s.workers && s.workers[o].manifest == s.world.keys.gens[k].value.manifest;
        assert t.workers[o].manifest == s.workers[o].manifest;
      } else {
        assert t.workers[id].manifest == w.manifest;
      }
    }
  }

  lemma OtherKnows(s: L.System, d: StandIn, id: nat, c: L.Choice, o: nat)
    requires SystemOk(s) && AllKnow(s, d.told) && id in s.workers && o in s.workers && o != id
    ensures var t := L.Step(s.world, s.workers[id], c).world; Knows(t, s.workers[o], Told(d, s, L.Act(id, c)).told, o)
  {
    hide KeysOk, WorkerOk, L.Step, Evolves, MemoryCall, CallOf, ListKnown, ActiveKnown;
    F.StepKeeps(s.world, s.workers[id], c);
    KnowsStable(s.world, L.Step(s.world, s.workers[id], c).world, s.workers[o], d.told, o);
  }

  lemma EventSimulated(s: L.System, d: StandIn, e: L.Event)
    requires SystemOk(s) && Simulates(s, d) && OneManifestEach(s)
    requires L.Enabled(None, s, e) && !e.LeaseExpires? && !e.MarkerExpires?
    ensures var t := L.Next(s, e); Simulates(t, Told(d, s, e)) && Faithful(s, d, e, t)
  {
    match e
    case Act(id, c) => ActSimulated(s, d, id, c);
    case Begin(id, w) => BeginSimulated(s, d, id, w);
    case Elapse(now) => ElapseSimulated(s, d, now);
    case CleanupExpires(k) => CleanupExpirySimulated(s, d, k);
  }

  lemma BeginSimulated(s: L.System, d: StandIn, id: nat, w: L.Worker)
    requires Simulates(s, d) && L.Enabled(None, s, L.Begin(id, w))
    ensures Simulates(L.Next(s, L.Begin(id, w)), d)
  {
    hide Abstracts;
    var t := L.Next(s, L.Begin(id, w));
    forall k | k in t.world.keys.gens
      ensures exists o :: o in t.workers && t.workers[o].manifest == t.world.keys.gens[k].value.manifest
    {
      var o :| o in s.workers && s.workers[o].manifest == s.world.keys.gens[k].value.manifest;
      assert t.workers[o].manifest == s.workers[o].manifest;
    }
  }

  lemma ElapseSimulated(s: L.System, d: StandIn, now: real)
    requires Simulates(s, d)
    ensures Simulates(s.(world := s.world.(now := now)), d)
  {
    hide Abstracts;
    var t := s.(world := s.world.(now := now));
    AbstractsOther(s.world, t.world, d.memory);
    forall id | id in t.workers ensures Knows(t.world, t.workers[id], d.told, id) {
      assert Knows(s.world, s.workers[id], d.told, id);
    }
  }

  /** An expiring record is not PENDING. */
  lemma CleanupExpirySimulated(s: L.System, d: StandIn, k: CleanupKey)
    requires Simulates(s, d) && L.Enabled(None, s, L.CleanupExpires(k))
    ensures Simulates(L.Next(s, L.CleanupExpires(k)), d)
  {
    hide Knows, Abstracts, KeysOk, Evolves;
    var t := L.Next(s, L.CleanupExpires(k));
    AbstractsParts(s.world, d.memory);
    CleanupExpiryKeeps(s.world, k);
    ExpiryAbstracts(s.world, t.world, d.memory, k);
    forall id | id in t.workers ensures Knows(t.world, t.workers[id], d.told, id) {
      KnowsStable(s.world, t.world, s.workers[id], d.told, id);
    }
  }

  lemma ExpiryAbstracts(s: World, t: World, m: Memory, k: CleanupKey)
    requires Abstracts(s, m) && KeysOk(t) && k in s.keys.cleanups && s.keys.cleanups[k].volatile
    requires t == s.(keys := s.keys.(cleanups := s.keys.cleanups - {k}))
    ensures Abstracts(t, m)
  {
    hide KeysOk, GenerationsNamed;
    VolatileIsDone(s, k);
    assert forall item :: IsActive(t, item) <==> IsActive(s, item);
    forall c ensures IsPending(t, c) <==> IsPending(s, c) {
    }
  }

  lemma VolatileIsDone(s: World, k: CleanupKey)
    requires KeysOk(s) && k in s.keys.cleanups && s.keys.cleanups[k].volatile
    ensures s.keys.cleanups[k].value.state == CleanupState.Done
  {
    hide RecordsOk, HistoryOk, IndexOk, CleanupsComplete, CleanupIndexOk, Follows;
    assert CleanupOk(s.keys.gens, s.history, s.cleaned, k, s.keys.cleanups[k]);
  }
}
