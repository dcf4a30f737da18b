/** The ingestion driver as a transition system over the Redis keys and the vector store.

    Any number of workers run the driver; one step is one command. A command may be answered, be
    lost before it takes effect, or take effect and lose its reply. Keys with a time to live vanish
    at any moment the system allows. A cap on deadlines puts the timing rule of `Enabled` in force. */
module Lifecycle {
  import opened Domain
  import opened RedisKeys

  datatype Phase =
    | Acquire
    | ReadActive
    | ReadActiveRecord(gen: string)
    | RecoveryList
    | RecoveryLoad(keys: seq<CleanupKey>)
    | RecoveryStage
    | RecoveryInspect
    | Stage
    | Embed
    | Upsert(done: nat)
    | Verify(done: nat)
    | MarkVerified
    | Publish
    | ConfirmActive
    | ConfirmRecord(gen: string)
    | CleanupList
    | CleanupLoad(keys: seq<CleanupKey>)
    | CleanupDelete(todo: seq<CleanupRecord>)
    | CleanupMark(todo: seq<CleanupRecord>)
    | AbortStage
    | AbortDelete(aborted: Record)
    | AbortClean(aborted: Record)
    | Release
    | Finished

  /** One run of the driver; `recovery` is its retry_failed flag. */
  datatype Worker = Worker(
    manifest: Manifest, owner: string, deadline: real, recovery: bool, phase: Phase,
    current: Option<Manifest>, stage: Option<Record>, published: bool)
  {
    function Filing(): Accession {
      manifest.accession
    }

    /** `next` is a later moment of this run. */
    predicate SameRun(next: Worker) {
      next.manifest == manifest && next.owner == owner && next.deadline == deadline && next.recovery == recovery
    }

    /** The exception handler: abort what was staged unless it was published, then release. */
    function Fail(): (w: Worker)
      ensures SameRun(w)
    {
      this.(phase := if stage.Some? && !published then AbortStage else Release)
    }
  }

  /** What the environment decides about one step: the command's fate, when the lease command was
      issued, which part of an unanswered vector call took effect, whether an unsuccessful
      verification is polled again, and the order in which a set of keys is listed. */
  datatype Choice = Choice(fate: Fate, issued: real, part: set<string>, again: bool, order: seq<CleanupKey>)

  /** The shared state. `history` and `cleaned` record, per filing, the generations published so
      far and those whose cleanup was completed; no step reads them. */
  datatype World = World(
    keys: Keys, points: map<GenerationKey, set<string>>, now: real,
    history: map<Accession, seq<string>>, cleaned: map<Accession, set<string>>)
  {
    function PointsOf(k: GenerationKey): set<string> {
      if k in points then points[k] else {}
    }

    /** The command's effect on the keys, unless it was dropped. */
    function After(fate: Fate, reply: Reply): World {
      if fate == Dropped then this else this.(keys := reply.keys)
    }

    function WithPoints(k: GenerationKey, present: set<string>): World {
      this.(points := points[k := present])
    }
  }

  function HistoryOf(history: map<Accession, seq<string>>, a: Accession): seq<string> {
    if a in history then history[a] else []
  }

  function CleanedOf(cleaned: map<Accession, set<string>>, a: Accession): set<string> {
    if a in cleaned then cleaned[a] else {}
  }

  datatype System = System(world: World, workers: map<nat, Worker>, owners: set<string>)

  datatype Event =
    | Begin(id: nat, worker: Worker)
    | Act(id: nat, choice: Choice)
    | Elapse(now: real)
    | LeaseExpires(accession: Accession)
    | MarkerExpires(key: GenerationKey)
    | CleanupExpires(cleanup: CleanupKey)

  const MAX_LEASE_SECONDS: real := 3600.0
  const BATCH: nat := 100

  function Ceil(x: real): int {
    -((-x).Floor)
  }

  /** The lease's time to live: the remaining time rounded up, between one second and one hour. */
  function LeaseSeconds(remaining: real): real {
    var whole := Ceil(remaining) as real;
    var capped := if whole < MAX_LEASE_SECONDS then whole else MAX_LEASE_SECONDS;
    if capped < 1.0 then 1.0 else capped
  }

  function BatchEnd(start: nat, total: nat): nat {
    if start + BATCH < total then start + BATCH else total
  }

  /** `keys` lists every member of `members` once. */
  predicate Enumerates(keys: seq<CleanupKey>, members: set<CleanupKey>) {
    Distinct(keys) && (set k | k in keys) == members
  }

  /** The checks of get_active_generation on the record its pointer names. */
  predicate ActiveRecordAccepted(k: Keys, a: Accession, gen: string) {
    var key := GenerationKey(a, gen);
    key in k.gens && k.gens[key].value.state == Published && KeyOf(k.gens[key].value.manifest) == key
  }

  /** The second read of list_pending_cleanups: every listed record, or nothing when one is
      missing, not PENDING, or stored under another key. */
  function LoadPending(k: Keys, scope: Scope, order: seq<CleanupKey>): (r: Option<seq<CleanupRecord>>)
    ensures r.Some? <==> forall key | key in order :: PendingAccepted(k, scope, key)
    ensures r.Some? ==>
      forall c :: c in r.value <==> c.Key() in order && c.Key() in k.cleanups && k.cleanups[c.Key()].value == c
  {
    if order == [] then Some([])
    else if !PendingAccepted(k, scope, order[0]) then None
    else
      var rest := LoadPending(k, scope, order[1..]);
      if rest.None? then None else Some([k.cleanups[order[0]].value] + rest.value)
  }

  predicate PendingAccepted(k: Keys, scope: Scope, key: CleanupKey) {
    && key in k.cleanups
    && k.cleanups[key].value.state == Pending
    && k.cleanups[key].value.superseded.accession.scope == scope
    && k.cleanups[key].value.Key() == key
  }

  function ForFiling(records: seq<CleanupRecord>, a: Accession): (r: seq<CleanupRecord>)
    ensures forall c :: c in r <==> c in records && c.superseded.accession == a
  {
    if records == [] then []
    else (if records[0].superseded.accession == a then [records[0]] else []) + ForFiling(records[1..], a)
  }

  // ---------------------------------------------------------------- steps of the driver

  datatype Effect = Effect(world: World, worker: Worker)

  /** One step keeps the run's identity and the clock, and only publication extends a history. */
  function Step(s: World, w: Worker, c: Choice): (e: Effect)
    ensures w.SameRun(e.worker) && e.world.now == s.now
    ensures e.world.history == s.history || w.phase.Publish?
  {
    match w.phase
    case Acquire => StepAcquire(s, w, c)
    case ReadActive => Effect(s, StepReadActive(s, w, c))
    case ReadActiveRecord(gen) => Effect(s, StepReadActiveRecord(s, w, c, gen))
    case RecoveryList => Effect(s, StepRecoveryList(s, w, c))
    case RecoveryLoad(keys) => Effect(s, StepRecoveryLoad(s, w, c, keys))
    case RecoveryStage => Effect(s, StepRecoveryStage(s, w, c))
    case RecoveryInspect => Effect(s, StepRecoveryInspect(s, w, c))
    case Stage => StepStage(s, w, c)
    case Embed => Effect(s, if c.fate == Delivered then w.(phase := Upsert(0)) else w.Fail())
    case Upsert(done) => StepUpsert(s, w, c, done)
    case Verify(done) => Effect(s, StepVerify(s, w, c, done))
    case MarkVerified => StepMarkVerified(s, w, c)
    case Publish => StepPublish(s, w, c)
    case ConfirmActive => Effect(s, StepConfirmActive(s, w, c))
    case ConfirmRecord(gen) => Effect(s, StepConfirmRecord(s, w, c, gen))
    case CleanupList => Effect(s, StepCleanupList(s, w, c))
    case CleanupLoad(keys) => Effect(s, StepCleanupLoad(s, w, c, keys))
    case CleanupDelete(todo) => StepCleanupDelete(s, w, c, todo)
    case CleanupMark(todo) => StepCleanupMark(s, w, c, todo)
    case AbortStage => StepAbort(s, w, c)
    case AbortDelete(aborted) => StepAbortDelete(s, w, c, aborted)
    case AbortClean(aborted) => StepAbortClean(s, w, c, aborted)
    case Release => StepRelease(s, w, c)
    case Finished => Effect(s, w)
  }

  function StepAcquire(s: World, w: Worker, c: Choice): (e: Effect)
    ensures w.SameRun(e.worker) && e.world.now == s.now && e.world.history == s.history
  {
    var a := w.Filing();
    var free := a !in s.keys.leases;
    var lease := Lease(w.owner, s.now + LeaseSeconds(w.deadline - c.issued));
    var s' := if free && c.fate != Dropped then s.(keys := s.keys.(leases := s.keys.leases[a := lease])) else s;
    Effect(s', w.(phase := if free && c.fate == Delivered then ReadActive else Finished))
  }

  function AfterActive(w: Worker, current: Option<Manifest>): (w': Worker)
    ensures w.SameRun(w')
  {
    var seen := w.(current := current);
    if w.recovery then (if current.Some? then seen.Fail() else seen.(phase := RecoveryList))
    else seen.(phase := if current == Some(w.manifest) then CleanupList else Stage)
  }

  function StepReadActive(s: World, w: Worker, c: Choice): (w': Worker)
    ensures w.SameRun(w')
  {
    if c.fate != Delivered then w.Fail()
    else if w.Filing() in s.keys.active then w.(phase := ReadActiveRecord(s.keys.active[w.Filing()]))
    else AfterActive(w, None)
  }

  function StepReadActiveRecord(s: World, w: Worker, c: Choice, gen: string): (w': Worker)
    ensures w.SameRun(w')
  {
    if c.fate == Delivered && ActiveRecordAccepted(s.keys, w.Filing(), gen)
    then AfterActive(w, Some(s.keys.gens[GenerationKey(w.Filing(), gen)].value.manifest))
    else w.Fail()
  }

  function StepRecoveryList(s: World, w: Worker, c: Choice): (w': Worker)
    ensures w.SameRun(w')
  {
    if c.fate != Delivered then w.Fail()
    else w.(phase := if c.order == [] then RecoveryStage else RecoveryLoad(c.order))
  }

  function StepRecoveryLoad(s: World, w: Worker, c: Choice, keys: seq<CleanupKey>): (w': Worker)
    ensures w.SameRun(w')
  {
    var records := LoadPending(s.keys, w.Filing().scope, keys);
    if c.fate == Delivered && records.Some? && ForFiling(records.value, w.Filing()) == []
    then w.(phase := RecoveryStage)
    else w.Fail()
  }

  function StepRecoveryStage(s: World, w: Worker, c: Choice): (w': Worker)
    ensures w.SameRun(w')
  {
    var key := KeyOf(w.manifest);
    if && c.fate == Delivered && key in s.keys.gens
       && s.keys.gens[key].value.manifest == w.manifest && s.keys.gens[key].value.state == Cleaned
    then w.(phase := RecoveryInspect)
    else w.Fail()
  }

  function StepRecoveryInspect(s: World, w: Worker, c: Choice): (w': Worker)
    ensures w.SameRun(w')
  {
    if c.fate == Delivered && s.PointsOf(KeyOf(w.manifest)) * w.manifest.Chunks() == {}
    then w.(phase := Stage)
    else w.Fail()
  }

  function StepStage(s: World, w: Worker, c: Choice): (e: Effect)
    ensures w.SameRun(e.worker) && e.world.now == s.now && e.world.history == s.history
  {
    var reply := StageScript(s.keys, w.Filing(), w.owner, w.manifest);
    Effect(s.After(c.fate, reply),
           if c.fate == Delivered && reply.code == 1
           then w.(stage := Some(StagedRecord(w.manifest)), phase := Embed)
           else w.Fail())
  }

  function StepUpsert(s: World, w: Worker, c: Choice, done: nat): (e: Effect)
    ensures w.SameRun(e.worker) && e.world.now == s.now && e.world.history == s.history
  {
    var key := KeyOf(w.manifest);
    var total := |w.manifest.chunkIds|;
    var end := BatchEnd(done, total);
    if done > end then Effect(s, w.Fail())
    else
      var batch := set id | id in w.manifest.chunkIds[done..end];
      var written := match c.fate case Delivered => batch case Dropped => {} case ReplyLost => batch * c.part;
      Effect(s.WithPoints(key, s.PointsOf(key) + written),
             if c.fate != Delivered then w.Fail()
             else w.(phase := if end == total then Verify(0) else Upsert(end)))
  }

  function StepVerify(s: World, w: Worker, c: Choice, done: nat): (w': Worker)
    ensures w.SameRun(w')
  {
    var total := |w.manifest.chunkIds|;
    var end := BatchEnd(done, total);
    if c.fate != Delivered || done > end then w.Fail()
    else if forall id | id in w.manifest.chunkIds[done..end] :: id in s.PointsOf(KeyOf(w.manifest))
    then w.(phase := if end == total then MarkVerified else Verify(end))
    else if c.again then w.(phase := Verify(0))
    else w.Fail()
  }

  function StepMarkVerified(s: World, w: Worker, c: Choice): (e: Effect)
    ensures w.SameRun(e.worker) && e.world.now == s.now && e.world.history == s.history
  {
    var verified := VerifiedRecord(w.manifest);
    var reply := SwapScript(s.keys, w.Filing(), w.owner, StagedRecord(w.manifest), verified, false);
    Effect(s.After(c.fate, reply),
           if c.fate == Delivered && reply.code == 1
           then w.(stage := Some(verified), phase := Publish)
           else w.Fail())
  }

  function PublishReply(s: World, w: Worker): Reply {
    PublishScript(s.keys, w.Filing(), w.owner, VerifiedRecord(w.manifest), PublishedRecord(w.manifest),
                  if w.current.None? then None else Some(w.current.value.gen),
                  PendingFor(w.current, w.manifest.gen))
  }

  function StepPublish(s: World, w: Worker, c: Choice): (e: Effect)
    ensures w.SameRun(e.worker) && e.world.now == s.now
  {
    var reply := PublishReply(s, w);
    var a := w.Filing();
    var s' := s.After(c.fate, reply);
    Effect(if c.fate != Dropped && reply.code == 1
           then s'.(history := s.history[a := HistoryOf(s.history, a) + [w.manifest.gen]])
           else s',
           if c.fate != Delivered then w.Fail()
           else if reply.code == 1 then w.(published := true, phase := CleanupList)
           else w.(phase := ConfirmActive))
  }

  function StepConfirmActive(s: World, w: Worker, c: Choice): (w': Worker)
    ensures w.SameRun(w')
  {
    if c.fate == Delivered && w.Filing() in s.keys.active
    then w.(phase := ConfirmRecord(s.keys.active[w.Filing()]))
    else w.Fail()
  }

  function StepConfirmRecord(s: World, w: Worker, c: Choice, gen: string): (w': Worker)
    ensures w.SameRun(w')
  {
    if && c.fate == Delivered && ActiveRecordAccepted(s.keys, w.Filing(), gen)
       && s.keys.gens[GenerationKey(w.Filing(), gen)].value.manifest == w.manifest
    then w.(phase := CleanupList)
    else w.Fail()
  }

  function StepCleanupList(s: World, w: Worker, c: Choice): (w': Worker)
    ensures w.SameRun(w')
  {
    w.(phase := if c.fate == Delivered && c.order != [] then CleanupLoad(c.order) else Release)
  }

  function StepCleanupLoad(s: World, w: Worker, c: Choice, keys: seq<CleanupKey>): (w': Worker)
    ensures w.SameRun(w')
  {
    var records := LoadPending(s.keys, w.Filing().scope, keys);
    if c.fate != Delivered || records.None? then w.(phase := Release)
    else NextCleanup(w, ForFiling(records.value, w.Filing()))
  }

  function NextCleanup(w: Worker, todo: seq<CleanupRecord>): (w': Worker)
    ensures w.SameRun(w')
  {
    w.(phase := if todo == [] then Release else CleanupDelete(todo))
  }

  /** A vector delete that was not answered may have removed any part of the generation. */
  function Deleted(s: World, c: Choice, key: GenerationKey): World {
    match c.fate
    case Delivered => s.WithPoints(key, {})
    case Dropped => s
    case ReplyLost => s.WithPoints(key, s.PointsOf(key) - c.part)
  }

  function StepCleanupDelete(s: World, w: Worker, c: Choice, todo: seq<CleanupRecord>): (e: Effect)
    ensures w.SameRun(e.worker) && e.world.now == s.now && e.world.history == s.history
  {
    if todo == [] then Effect(s, w.(phase := Release))
    else Effect(Deleted(s, c, KeyOf(todo[0].superseded)),
                if c.fate == Delivered then w.(phase := CleanupMark(todo)) else NextCleanup(w, todo[1..]))
  }

  function StepCleanupMark(s: World, w: Worker, c: Choice, todo: seq<CleanupRecord>): (e: Effect)
    ensures w.SameRun(e.worker) && e.world.now == s.now && e.world.history == s.history
  {
    if todo == [] then Effect(s, w.(phase := Release))
    else
      var reply := CleanSupersededScript(s.keys, w.Filing(), w.owner, todo[0]);
      var a := todo[0].superseded.accession;
      var s' := s.After(c.fate, reply);
      Effect(if c.fate != Dropped && reply.code == 1
             then s'.(cleaned := s.cleaned[a := CleanedOf(s.cleaned, a) + {todo[0].superseded.gen}])
             else s',
             NextCleanup(w, todo[1..]))
  }

  function StepAbort(s: World, w: Worker, c: Choice): (e: Effect)
    ensures w.SameRun(e.worker) && e.world.now == s.now && e.world.history == s.history
  {
    if w.stage.None? then Effect(s, w.(phase := Release))
    else
      var aborted := w.stage.value.WithState(Aborted);
      var reply := SwapScript(s.keys, w.Filing(), w.owner, w.stage.value, aborted, false);
      Effect(s.After(c.fate, reply),
             if c.fate != Delivered || reply.code != 1 then w.(phase := Release)
             else if w.current.None? || w.current.value.gen != w.manifest.gen then w.(phase := AbortDelete(aborted))
             else w.(phase := AbortClean(aborted)))
  }

  function StepAbortDelete(s: World, w: Worker, c: Choice, aborted: Record): (e: Effect)
    ensures w.SameRun(e.worker) && e.world.now == s.now && e.world.history == s.history
  {
    Effect(Deleted(s, c, KeyOf(w.manifest)),
           w.(phase := if c.fate == Delivered then AbortClean(aborted) else Release))
  }

  function StepAbortClean(s: World, w: Worker, c: Choice, aborted: Record): (e: Effect)
    ensures w.SameRun(e.worker) && e.world.now == s.now && e.world.history == s.history
  {
    var reply := SwapScript(s.keys, w.Filing(), w.owner, aborted, aborted.WithState(Cleaned), true);
    Effect(s.After(c.fate, reply), w.(phase := Release))
  }

  function StepRelease(s: World, w: Worker, c: Choice): (e: Effect)
    ensures w.SameRun(e.worker) && e.world.now == s.now && e.world.history == s.history
  {
    Effect(s.After(c.fate, LeaseReleaseScript(s.keys, w.Filing(), w.owner)), w.(phase := Finished))
  }

  // ---------------------------------------------------------------- runs

  /** The timing rule with cap `cap`: a run starts with at most `cap` seconds to its deadline, asks for
      its lease after that start, acts only before its deadline, and no lease vanishes before its time
      to live is over. Without a cap anything may happen at any time. */
  predicate Enabled(cap: Option<real>, s: System, e: Event) {
    match e
    case Begin(id, w) =>
      && id !in s.workers && w.owner !in s.owners && w.manifest.Valid()
      && w.phase == Acquire && w.current.None? && w.stage.None? && !w.published
      && (cap.Some? ==> s.world.now < w.deadline <= s.world.now + cap.value)
    case Act(id, c) =>
      && id in s.workers
      && (var w := s.workers[id];
          && (cap.Some? ==> s.world.now < w.deadline)
          && (cap.Some? && w.phase == Acquire ==> w.deadline - cap.value <= c.issued <= s.world.now)
          && (w.phase.RecoveryList? || w.phase.CleanupList? ==>
                Enumerates(c.order, Members(s.world.keys.cleanupIndex, w.Filing().scope))))
    case Elapse(now) => s.world.now <= now
    case LeaseExpires(a) =>
      a in s.world.keys.leases && (cap.Some? ==> s.world.keys.leases[a].expires <= s.world.now)
    case MarkerExpires(k) => k in s.world.keys.gens && s.world.keys.gens[k].volatile
    case CleanupExpires(k) => k in s.world.keys.cleanups && s.world.keys.cleanups[k].volatile
  }

  function Next(s: System, e: Event): System
    requires Enabled(None, s, e)
  {
    match e
    case Begin(id, w) => s.(workers := s.workers[id := w], owners := s.owners + {w.owner})
    case Act(id, c) =>
      var effect := Step(s.world, s.workers[id], c);
      s.(world := effect.world, workers := s.workers[id := effect.worker])
    case Elapse(now) => s.(world := s.world.(now := now))
    case LeaseExpires(a) => WithKeys(s, s.world.keys.(leases := s.world.keys.leases - {a}))
    case MarkerExpires(k) => WithKeys(s, s.world.keys.(gens := s.world.keys.gens - {k}))
    case CleanupExpires(k) => WithKeys(s, s.world.keys.(cleanups := s.world.keys.cleanups - {k}))
  }

  function WithKeys(s: System, keys: Keys): System {
    s.(world := s.world.(keys := keys))
  }

  predicate Initial(s: System) {
    && s.world.keys == EMPTY_KEYS && s.world.points == map[]
    && s.world.history == map[] && s.world.cleaned == map[]
    && s.workers == map[] && s.owners == {}
  }

  /** A run of the system: states joined by enabled events. */
  predicate Run(cap: Option<real>, states: seq<System>, events: seq<Event>) {
    && |states| == |events| + 1
    && Initial(states[0])
    && forall i | 0 <= i < |events| :: Enabled(cap, states[i], events[i]) && states[i + 1] == Next(states[i], events[i])
  }
}
