/** The guarantees of the generation scripts over whole runs, with no timing assumption. */
module FencingTheorems {
  import opened Domain
  import opened RedisKeys
  import opened Lifecycle
  import opened Fencing
  import opened FencedRuns

  /** Every active pointer names a PUBLISHED record whose verification proves its manifest, and the
      index of a scope lists exactly the filings of that scope that have an active pointer. */
  lemma ActivePointersProven(states: seq<System>, events: seq<Event>, i: nat, a: Accession)
    requires Run(None, states, events) && i < |states|
    ensures var k := states[i].world.keys;
            && (a in k.active ==>
                  var key := GenerationKey(a, k.active[a]);
                  && key in k.gens && k.gens[key].value.state == Published && !k.gens[key].volatile
                  && KeyOf(k.gens[key].value.manifest) == key
                  && k.gens[key].value.proof.Some?
                  && k.gens[key].value.proof.value.Proves(k.gens[key].value.manifest))
            && (forall sc :: a in Members(k.index, sc) <==> sc == a.scope && a in k.active)
  {
    RunKeeps(states, events, i, i);
    var s := states[i].world;
    if a in s.keys.active {
      ActivePointerAccepted(s, a);
    }
    IndexExact(s.keys.index, s.keys.active, a);
  }

  lemma IndexExact(index: map<Scope, set<Accession>>, active: map<Accession, string>, a: Accession)
    requires IndexOk(index, active)
    ensures forall sc :: a in Members(index, sc) <==> sc == a.scope && a in active
  {
  }

  /** PUBLISHED is terminal: such a record is never rewritten, deleted or given a time to live. */
  lemma PublishedNeverChanges(states: seq<System>, events: seq<Event>, i: nat, j: nat, k: GenerationKey)
    requires Run(None, states, events) && i <= j < |states| && PublishedAt(states[i].world.keys.gens, k)
    ensures k in states[j].world.keys.gens && states[j].world.keys.gens[k] == states[i].world.keys.gens[k]
  {
    RunKeeps(states, events, i, j);
  }

  /** The active pointer of a filing is never removed, and a generation it has left is never its
      target again: comparing the active ID alone cannot be fooled. */
  lemma NoReactivation(states: seq<System>, events: seq<Event>, i: nat, j: nat, k: nat, a: Accession)
    requires Run(None, states, events) && i <= j <= k < |states| && a in states[i].world.keys.active
    ensures a in states[j].world.keys.active && a in states[k].world.keys.active
    ensures states[j].world.keys.active[a] != states[i].world.keys.active[a] ==>
              states[k].world.keys.active[a] != states[i].world.keys.active[a]
  {
    hide KeysOk, WorkerOk;
    RunKeeps(states, events, i, i);
    RunKeeps(states, events, i, j);
    RunKeeps(states, events, j, k);
    ActiveIsLast(states[i].world, a);
    ActiveIsLast(states[j].world, a);
    ActiveIsLast(states[k].world, a);
    if states[j].world.keys.active[a] != states[i].world.keys.active[a] {
      LeftLastNeverReturns(states[i].world.history[a], states[j].world.history[a], states[k].world.history[a]);
    }
  }

  lemma ActiveIsLast(s: World, a: Accession)
    requires KeysOk(s) && (a in s.history || a in s.keys.active)
    ensures a in s.history && a in s.keys.active && Distinct(s.history[a])
    ensures s.history[a] != [] && s.keys.active[a] == s.history[a][|s.history[a]| - 1]
  {
  }

  lemma LeftLastNeverReturns(h0: seq<string>, h1: seq<string>, h2: seq<string>)
    requires h0 != [] && h0 <= h1 <= h2 && Distinct(h2) && h1[|h1| - 1] != h0[|h0| - 1]
    ensures h2[|h2| - 1] != h0[|h0| - 1]
  {
    assert h0[|h0| - 1] == h1[|h0| - 1] == h2[|h0| - 1];
    assert h2[|h1| - 1] == h1[|h1| - 1];
  }

  /** The history records exactly the changes of the active pointer. */
  lemma HistoryRecordsPublications(states: seq<System>, events: seq<Event>, i: nat, a: Accession)
    requires Run(None, states, events) && i + 1 < |states|
    ensures var s := states[i].world; var t := states[i + 1].world;
            HistoryOf(t.history, a) == HistoryOf(s.history, a)
              + (if a in t.keys.active && !(a in s.keys.active && s.keys.active[a] == t.keys.active[a])
                 then [t.keys.active[a]] else [])
  {
    hide KeysOk, WorkerOk, Evolves;
    RunKeeps(states, events, i, i);
    RunKeeps(states, events, i + 1, i + 1);
    OneStepHistory(states[i], events[i], a);
    assert states[i + 1] == Next(states[i], events[i]);
    HistoryAgrees(states[i].world, states[i + 1].world, a);
  }

  lemma HistoryAgrees(s: World, t: World, a: Accession)
    requires KeysOk(s) && KeysOk(t)
    requires var h := HistoryOf(s.history, a); var h' := HistoryOf(t.history, a);
             h <= h' && |h| <= |h'| <= |h| + 1
    ensures HistoryOf(t.history, a) == HistoryOf(s.history, a)
              + (if a in t.keys.active && !(a in s.keys.active && s.keys.active[a] == t.keys.active[a])
                 then [t.keys.active[a]] else [])
  {
    hide RecordsOk, IndexOk, CleanupsOk, CleanupsComplete, CleanupIndexOk;
    var h, h' := HistoryOf(s.history, a), HistoryOf(t.history, a);
    if |h'| == |h| {
      assert h' == h;
    } else {
      assert h' == h + [h'[|h|]];
    }
  }

  lemma OneStepHistory(s: System, e: Event, a: Accession)
    requires SystemOk(s) && Enabled(None, s, e)
    ensures var h := HistoryOf(s.world.history, a); var h' := HistoryOf(Next(s, e).world.history, a);
            h <= h' && |h| <= |h'| <= |h| + 1
  {
    hide KeysOk, WorkerOk, Step;
    if e.Act? && s.workers[e.id].phase.Publish? {
      PublishStepHistory(s.world, s.workers[e.id], e.choice, a);
    }
  }

  lemma PublishStepHistory(s: World, w: Worker, c: Choice, a: Accession)
    requires w.phase.Publish?
    ensures var h := HistoryOf(s.history, a); var h' := HistoryOf(Step(s, w, c).world.history, a);
            h <= h' && |h| <= |h'| <= |h| + 1
  {
    hide PublishReply;
  }

  /** No publish script ever answers -4: the cleanup key of a new publication is always free. */
  lemma PublishNeverMeetsForeignCleanup(states: seq<System>, events: seq<Event>, i: nat, id: nat)
    requires Run(None, states, events) && i < |states| && id in states[i].workers
    requires states[i].workers[id].phase == Publish
    ensures PublishReply(states[i].world, states[i].workers[id]).code != -4
  {
    RunKeeps(states, events, i, i);
    hide KeysOk;
    assert WorkerOk(states[i].world, states[i].workers[id]);
    CleanupKeyIsFree(states[i].world, states[i].workers[id]);
  }

  lemma CleanupKeyIsFree(s: World, w: Worker)
    requires KeysOk(s) && (w.current.Some? ==> w.current.value.accession == w.Filing())
    ensures PublishReply(s, w).code != -4
  {
    hide KeysOk;
    if w.current.Some? {
      var key := CleanupKey(w.current.value.accession, w.current.value.gen, w.manifest.gen);
      if key in s.keys.cleanups {
        SuccessorPublished(s, key);
      }
    }
  }

  lemma SuccessorPublished(s: World, k: CleanupKey)
    requires KeysOk(s) && k in s.keys.cleanups
    ensures PublishedAt(s.keys.gens, GenerationKey(k.accession, k.replacement))
  {
    assert CleanupOk(s.keys.gens, s.history, s.cleaned, k, s.keys.cleanups[k]);
    assert k.replacement in HistoryOf(s.history, k.accession);
  }

  /** No superseded-cleanup script ever answers -2: what a worker cleans is never active again. */
  lemma SupersededNeverActive(states: seq<System>, events: seq<Event>, i: nat, id: nat)
    requires Run(None, states, events) && i < |states| && id in states[i].workers
    requires states[i].workers[id].phase.CleanupMark?
    ensures var s := states[i].world; var w := states[i].workers[id];
            w.phase.todo != [] && CleanSupersededScript(s.keys, w.Filing(), w.owner, w.phase.todo[0]).code != -2
  {
    hide KeysOk, Follows, PublishedAs, CleanSupersededScript, Distinct;
    RunKeeps(states, events, i, i);
    var s, w := states[i].world, states[i].workers[id];
    assert WorkerOk(s, w);
    RestKnown(s, w.Filing(), w.phase.todo);
    KnownNotActive(s, w.Filing(), w.phase.todo[0]);
    NotActiveAnswer(s.keys, w.Filing(), w.owner, w.phase.todo[0]);
  }

  lemma NotActiveAnswer(k: Keys, a: Accession, owner: string, c: CleanupRecord)
    requires a in k.active && k.active[a] != c.superseded.gen
    ensures CleanSupersededScript(k, a, owner, c).code != -2
  {
  }

  lemma KnownNotActive(s: World, a: Accession, c: CleanupRecord)
    requires KeysOk(s) && CleanupKnown(s, a, c)
    ensures a in s.keys.active && s.keys.active[a] != c.superseded.gen
  {
    assert a in s.history;
    FollowsNotLast(s.history[a], c.superseded.gen, c.replacement);
  }

  /** The record read through an active pointer always passes get_active_generation's checks, even
      when the pointer moves between its two reads. */
  lemma ActiveReadNeverFailsClosed(states: seq<System>, events: seq<Event>, i: nat, id: nat)
    requires Run(None, states, events) && i < |states| && id in states[i].workers
    requires var p := states[i].workers[id].phase; p.ReadActiveRecord? || p.ConfirmRecord?
    ensures var w := states[i].workers[id];
            ActiveRecordAccepted(states[i].world.keys, w.Filing(), w.phase.gen)
  {
    RunKeeps(states, events, i, i);
    assert WorkerOk(states[i].world, states[i].workers[id]);
  }

  // ---------------------------------------------------------------- cleanup conservation

  ghost function PendingOf(s: World, a: Accession): set<CleanupKey> {
    set k | k in s.keys.cleanups && k.accession == a && s.keys.cleanups[k].value.state == Pending
  }

  ghost function Superseded(keys: set<CleanupKey>): set<string> {
    set k | k in keys :: k.superseded
  }

  ghost function PublishedGenerations(s: World, a: Accession): set<string> {
    set k | k in s.keys.gens && s.keys.gens[k].value.state == Published && k.accession == a :: k.gen
  }

  /** Once a filing is published, its PUBLISHED generations split exactly into the active one, those
      with a PENDING cleanup and those whose cleanup was completed; so publications equal one plus
      pending cleanups plus completed ones. */
  lemma CleanupConservation(states: seq<System>, events: seq<Event>, i: nat, a: Accession)
    requires Run(None, states, events) && i < |states| && a in states[i].world.keys.active
    ensures var s := states[i].world;
            var pending := Superseded(PendingOf(s, a)); var done := CleanedOf(s.cleaned, a);
            && PublishedGenerations(s, a) == {s.keys.active[a]} + pending + done
            && s.keys.active[a] !in pending + done && pending !! done
            && |PublishedGenerations(s, a)| == |HistoryOf(s.history, a)|
            && |HistoryOf(s.history, a)| == 1 + |PendingOf(s, a)| + |done|
  {
    RunKeeps(states, events, i, i);
    ConservationInWorld(states[i].world, a);
  }

  lemma ConservationInWorld(s: World, a: Accession)
    requires KeysOk(s) && a in s.keys.active
    ensures var pending := Superseded(PendingOf(s, a)); var done := CleanedOf(s.cleaned, a);
            && PublishedGenerations(s, a) == {s.keys.active[a]} + pending + done
            && s.keys.active[a] !in pending + done && pending !! done
            && |PublishedGenerations(s, a)| == |HistoryOf(s.history, a)|
            && |HistoryOf(s.history, a)| == 1 + |PendingOf(s, a)| + |done|
  {
    HistoryShape(s, a);
    hide KeysOk, Distinct, Superseded, PendingOf, PublishedGenerations, Elements;
    var h := s.history[a];
    var pending, done := Superseded(PendingOf(s, a)), CleanedOf(s.cleaned, a);
    PublishedIsHistory(s, a);
    SplitOfHistory(s, a);
    DistinctSize(h);
    PendingInjective(s, a);
    PartitionSize(s.keys.active[a], pending, done);
  }

  lemma PartitionSize(x: string, p: set<string>, d: set<string>)
    requires x !in p + d && p !! d
    ensures |{x} + p + d| == 1 + |p| + |d|
  {
    assert |{x} + p| == 1 + |p|;
    assert ({x} + p) !! d;
  }

  lemma HistoryShape(s: World, a: Accession)
    requires KeysOk(s) && a in s.keys.active
    ensures a in s.history && Distinct(s.history[a])
  {
  }

  lemma PublishedIsHistory(s: World, a: Accession)
    requires KeysOk(s) && a in s.history
    ensures PublishedGenerations(s, a) == Elements(s.history[a])
  {
    forall g | g in s.history[a] ensures g in PublishedGenerations(s, a) {
      assert PublishedAt(s.keys.gens, GenerationKey(a, g));
    }
    forall g | g in PublishedGenerations(s, a) ensures g in s.history[a] {
      var k :| k in s.keys.gens && s.keys.gens[k].value.state == Published && k.accession == a && k.gen == g;
      assert PublishedAt(s.keys.gens, k);
    }
  }

  lemma SplitOfHistory(s: World, a: Accession)
    requires KeysOk(s) && a in s.history
    ensures var pending := Superseded(PendingOf(s, a)); var done := CleanedOf(s.cleaned, a);
            && Elements(s.history[a]) == {s.keys.active[a]} + pending + done
            && s.keys.active[a] !in pending + done && pending !! done
  {
    var pending, done, h := Superseded(PendingOf(s, a)), CleanedOf(s.cleaned, a), s.history[a];
    forall g | g in pending ensures g in h && g != s.keys.active[a] && g !in done {
      var k :| k in PendingOf(s, a) && k.superseded == g;
      assert CleanupOk(s.keys.gens, s.history, s.cleaned, k, s.keys.cleanups[k]);
      FollowsNotLast(h, g, k.replacement);
    }
    forall g | g in done ensures g in h && g != s.keys.active[a] {
      var r :| Follows(HistoryOf(s.history, a), g, r);
      FollowsNotLast(h, g, r);
    }
    forall g | g in h && g != s.keys.active[a] && g !in done ensures g in pending {
      var n :| 0 <= n < |h| && h[n] == g;
      assert h[n + 1] == h[n + 1];
      assert Follows(HistoryOf(s.history, a), g, h[n + 1]);
      var k := CleanupKey(a, g, h[n + 1]);
      assert CleanupOk(s.keys.gens, s.history, s.cleaned, k, s.keys.cleanups[k]);
      assert k in PendingOf(s, a);
    }
  }

  lemma PendingInjective(s: World, a: Accession)
    requires KeysOk(s) && a in s.history
    ensures |Superseded(PendingOf(s, a))| == |PendingOf(s, a)|
  {
    forall k, k' | k in PendingOf(s, a) && k' in PendingOf(s, a) && k.superseded == k'.superseded ensures k == k' {
      assert CleanupOk(s.keys.gens, s.history, s.cleaned, k, s.keys.cleanups[k]);
      assert CleanupOk(s.keys.gens, s.history, s.cleaned, k', s.keys.cleanups[k']);
      FollowsFunctional(s.history[a], k.superseded, k.replacement, k'.replacement);
    }
    InjectiveImageSize(PendingOf(s, a));
  }

  lemma {:induction false} InjectiveImageSize(keys: set<CleanupKey>)
    requires forall k, k' | k in keys && k' in keys && k.superseded == k'.superseded :: k == k'
    ensures |Superseded(keys)| == |keys|
  {
    if keys != {} {
      var k :| k in keys;
      InjectiveImageSize(keys - {k});
      assert Superseded(keys) == Superseded(keys - {k}) + {k.superseded};
    }
  }
}
