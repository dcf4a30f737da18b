/** The list of pending cleanups is read by two commands: the index, then the records. When the second
    one fails closed, in every run, whatever expires, is lost or crashes between them. */
module PendingListing {
  import opened Domain
  import opened RedisKeys
  import opened Lifecycle
  import opened Fencing
  import opened StepFrame
  import F = FencedRuns

  /** Between the two commands. */
  predicate Listing(p: Phase) {
    p.RecoveryLoad? || p.CleanupLoad?
  }

  predicate Lists(p: Phase) {
    p.RecoveryList? || p.CleanupList?
  }

  /** The cleanup this key stands for was completed. */
  ghost predicate Completed(s: World, k: CleanupKey) {
    k.superseded in CleanedOf(s.cleaned, k.accession)
  }

  /** A listed key names a supersession of a filing of the scope. */
  ghost predicate Listable(s: World, scope: Scope, k: CleanupKey) {
    k.accession.scope == scope && Follows(HistoryOf(s.history, k.accession), k.superseded, k.replacement)
  }

  // ---------------------------------------------------------------- one state

  /** A supersession has its PENDING record and its place in the index until its cleanup is completed. */
  lemma PendingUntilCompleted(s: World, scope: Scope, k: CleanupKey)
    requires KeysOk(s) && Listable(s, scope, k)
    ensures PendingAccepted(s.keys, scope, k) <==> !Completed(s, k)
    ensures k in Members(s.keys.cleanupIndex, scope) <==> !Completed(s, k)
  {
    hide RecordsOk, HistoryOk, IndexOk;
    if k in s.keys.cleanups {
      assert CleanupOk(s.keys.gens, s.history, s.cleaned, k, s.keys.cleanups[k]);
    }
  }

  lemma IndexedIsListable(s: World, scope: Scope, k: CleanupKey)
    requires KeysOk(s) && k in Members(s.keys.cleanupIndex, scope)
    ensures Listable(s, scope, k) && !Completed(s, k)
  {
    hide RecordsOk, HistoryOk, IndexOk, CleanupsComplete;
    assert CleanupOk(s.keys.gens, s.history, s.cleaned, k, s.keys.cleanups[k]);
  }

  lemma ListableStable(s: World, t: World, scope: Scope, k: CleanupKey)
    requires Listable(s, scope, k) && Evolves(s, t)
    ensures Listable(t, scope, k)
  {
    FollowsPrefix(HistoryOf(s.history, k.accession), HistoryOf(t.history, k.accession), k.superseded, k.replacement);
  }

  // ---------------------------------------------------------------- one step

  /** The first command lists what the index holds; no other command starts a second one. */
  lemma StepListsIndex(s: World, w: Worker, c: Choice)
    requires KeysOk(s) && Listing(Step(s, w, c).worker.phase)
    requires Lists(w.phase) ==> Enumerates(c.order, Members(s.keys.cleanupIndex, w.Filing().scope))
    ensures Lists(w.phase) && c.fate == Delivered && Step(s, w, c).worker == w.(phase := Step(s, w, c).worker.phase)
    ensures Step(s, w, c).worker.phase.keys == c.order && Step(s, w, c).world == s
    ensures forall k | k in c.order :: Listable(s, w.Filing().scope, k) && !Completed(s, k)
  {
    OnlyListsStart(s, w, c);
    hide KeysOk, Step, Distinct, Listable, Completed;
    forall k | k in c.order ensures Listable(s, w.Filing().scope, k) && !Completed(s, k) {
      assert k in (set x | x in c.order);
      IndexedIsListable(s, w.Filing().scope, k);
    }
  }

  lemma OnlyListsStart(s: World, w: Worker, c: Choice)
    requires Listing(Step(s, w, c).worker.phase)
    ensures Lists(w.phase) && c.fate == Delivered && Step(s, w, c).worker == w.(phase := Step(s, w, c).worker.phase)
    ensures Step(s, w, c).worker.phase.keys == c.order && Step(s, w, c).world == s
  {
    OthersStartNone(s, w, c);
    hide Listing;
    ListStarts(s, w, c);
  }

  lemma OthersStartNone(s: World, w: Worker, c: Choice)
    ensures Listing(Step(s, w, c).worker.phase) ==> Lists(w.phase)
  {
    hide Step, Lists, Listing;
    if Writes(w.phase) {
      WritesStartNone(s, w, c);
    } else {
      ReadsStartNone(s, w, c);
    }
  }

  lemma WritesStartNone(s: World, w: Worker, c: Choice)
    requires Writes(w.phase)
    ensures !Listing(Step(s, w, c).worker.phase)
  {
    hide PublishReply, SwapScript, StageScript, CleanSupersededScript, LoadPending, ForFiling, ActiveRecordAccepted,
         RecoverableRecords, LeaseReleaseScript, LeaseSeconds, Deleted;
  }

  lemma ReadsStartNone(s: World, w: Worker, c: Choice)
    requires !Writes(w.phase)
    ensures Listing(Step(s, w, c).worker.phase) ==> Lists(w.phase)
  {
    hide PublishReply, SwapScript, StageScript, CleanSupersededScript, LoadPending, ForFiling, ActiveRecordAccepted,
         RecoverableRecords, LeaseReleaseScript, LeaseSeconds, Deleted;
  }

  lemma ListStarts(s: World, w: Worker, c: Choice)
    requires Lists(w.phase)
    ensures var e := Step(s, w, c); Listing(e.worker.phase) ==>
              c.fate == Delivered && e.worker == w.(phase := e.worker.phase) && e.worker.phase.keys == c.order && e.world == s
  {
  }

  /** Only a cleanup's own mark completes it, and it stays completed. */
  lemma StepCompletes(s: World, w: Worker, c: Choice, k: CleanupKey)
    ensures Completed(s, k) ==> Completed(Step(s, w, c).world, k)
    ensures Completed(Step(s, w, c).world, k) && !Completed(s, k) ==> Marks(s, w, c, k)
    ensures Marks(s, w, c, k) ==> Completed(Step(s, w, c).world, k)
  {
    hide PublishScript, SwapScript, StageScript, CleanSupersededScript, LoadPending, ForFiling, ActiveRecordAccepted;
  }

  /** The worker's command takes effect and completes the cleanup of `k`'s superseded generation. */
  ghost predicate Marks(s: World, w: Worker, c: Choice, k: CleanupKey) {
    && w.phase.CleanupMark? && w.phase.todo != [] && c.fate != Dropped
    && w.phase.todo[0].superseded.accession == k.accession && w.phase.todo[0].superseded.gen == k.superseded
    && CleanSupersededScript(s.keys, w.Filing(), w.owner, w.phase.todo[0]).code == 1
  }

  // ---------------------------------------------------------------- whole runs

  /** In step `l` worker `id` read `keys` from the index of its scope. */
  ghost predicate ListedAt(states: seq<System>, events: seq<Event>, l: nat, id: nat, keys: seq<CleanupKey>) {
    && l < |events| < |states| && events[l].Act? && events[l].id == id && id in states[l].workers
    && Lists(states[l].workers[id].phase) && events[l].choice.fate == Delivered && events[l].choice.order == keys
    && Enumerates(keys, Members(states[l].world.keys.cleanupIndex, states[l].workers[id].Filing().scope))
  }

  /** In step `j` some worker completed the cleanup of `k`'s superseded generation. */
  ghost predicate MarkedAt(states: seq<System>, events: seq<Event>, j: nat, k: CleanupKey) {
    && j < |events| < |states| && events[j].Act? && events[j].id in states[j].workers
    && Marks(states[j].world, states[j].workers[events[j].id], events[j].choice, k)
  }

  ghost predicate ListedFresh(states: seq<System>, events: seq<Event>, l: nat, id: nat, scope: Scope, keys: seq<CleanupKey>) {
    && ListedAt(states, events, l, id, keys) && states[l].workers[id].Filing().scope == scope
    && forall k | k in keys :: Listable(states[l].world, scope, k) && !Completed(states[l].world, k)
  }

  lemma {:induction false} ListedBefore(states: seq<System>, events: seq<Event>, i: nat, id: nat)
    requires Run(None, states, events) && i < |states| && id in states[i].workers && Listing(states[i].workers[id].phase)
    ensures exists l :: 0 <= l < i && ListedFresh(states, events, l, id, states[i].workers[id].Filing().scope, states[i].workers[id].phase.keys)
  {
    hide KeysOk, WorkerOk, Step, Listable, Completed, Enumerates;
    assert i > 0;
    var s, e := states[i - 1], events[i - 1];
    F.RunKeeps(states, events, i - 1, i - 1);
    assert Enabled(None, s, e) && states[i] == Next(s, e);
    if e.Act? && e.id == id {
      StepListsIndex(s.world, s.workers[id], e.choice);
      assert ListedFresh(states, events, i - 1, id, states[i].workers[id].Filing().scope, states[i].workers[id].phase.keys);
    } else {
      assert id in s.workers && states[i].workers[id] == s.workers[id];
      ListedBefore(states, events, i - 1, id);
    }
  }

  /** Between two moments a cleanup is completed by a mark, and by nothing else. */
  lemma {:induction false} CompletedByMark(states: seq<System>, events: seq<Event>, l: nat, i: nat, k: CleanupKey)
    requires Run(None, states, events) && l <= i < |states| && !Completed(states[l].world, k)
    ensures Completed(states[i].world, k) <==> exists j :: l <= j < i && MarkedAt(states, events, j, k)
    decreases i
  {
    hide Step, Marks, Completed;
    if l < i {
      CompletedByMark(states, events, l, i - 1, k);
      var s, e := states[i - 1], events[i - 1];
      assert Enabled(None, s, e) && states[i] == Next(s, e);
      if e.Act? {
        StepCompletes(s.world, s.workers[e.id], e.choice, k);
      } else {
        EnvironmentCompletesNone(s, e, k);
      }
      assert MarkedAt(states, events, i - 1, k) <==> e.Act? && Marks(s.world, s.workers[e.id], e.choice, k);
    }
  }

  lemma EnvironmentCompletesNone(s: System, e: Event, k: CleanupKey)
    requires Enabled(None, s, e) && !e.Act?
    ensures Completed(Next(s, e).world, k) <==> Completed(s.world, k)
  {
  }

  /** In every run the second command of a listing fails closed exactly when a listed cleanup was
      completed after the first one: exactly when a listed key has left the index. */
  lemma LoadFailsExactly(states: seq<System>, events: seq<Event>, i: nat, id: nat)
    requires Run(None, states, events) && i < |states| && id in states[i].workers && Listing(states[i].workers[id].phase)
    ensures var s, w := states[i].world, states[i].workers[id]; var scope, keys := w.Filing().scope, w.phase.keys;
            var fails := LoadPending(s.keys, scope, keys).None?;
            && (fails <==> exists k :: k in keys && Completed(s, k))
            && (fails <==> exists k :: k in keys && k !in Members(s.keys.cleanupIndex, scope))
            && exists l :: 0 <= l < i && ListedAt(states, events, l, id, keys)
                 && (fails <==> exists j, k :: l <= j < i && k in keys && MarkedAt(states, events, j, k))
  {
    hide KeysOk, Run, LoadPending, Listable, Completed, MarkedAt, ListedAt, Evolves;
    var s, w := states[i].world, states[i].workers[id];
    var scope, keys := w.Filing().scope, w.phase.keys;
    ListedBefore(states, events, i, id);
    var l :| 0 <= l < i && ListedFresh(states, events, l, id, scope, keys);
    F.RunKeeps(states, events, l, i);
    forall k | k in keys
      ensures PendingAccepted(s.keys, scope, k) <==> !Completed(s, k)
      ensures k in Members(s.keys.cleanupIndex, scope) <==> !Completed(s, k)
      ensures Completed(s, k) <==> exists j :: l <= j < i && MarkedAt(states, events, j, k)
    {
      ListableStable(states[l].world, s, scope, k);
      PendingUntilCompleted(s, scope, k);
      CompletedByMark(states, events, l, i, k);
    }
  }

  /** What a worker does when it fails: a recovery is given up, a cleanup is left to the next ingestion. */
  lemma RefusedLoad(s: World, w: Worker, c: Choice)
    requires Listing(w.phase) && LoadPending(s.keys, w.Filing().scope, w.phase.keys).None?
    ensures Step(s, w, c) == Effect(s, if w.phase.RecoveryLoad? then w.Fail() else w.(phase := Release))
  {
  }
}
