/** The Redis control plane answers the driver's calls as the in-memory one does, as long as no key
    expires; the abstraction relation is `Abstracts`. */
module Refinement {
  import opened Domain
  import opened RedisKeys
  import opened MemoryControl
  import opened Fencing
  import L = Lifecycle
  import F = FencedRuns
  import T = FencingTheorems

  type World = L.World

  // ---------------------------------------------------------------- calls on Redis

  function StageReply(s: World, reply: Reply, r: Record): (World, Answer) {
    (s.(keys := reply.keys), StageAnswer(if reply.code == 1 then Some(r) else None))
  }

  /** One uninterrupted call on the Redis control plane. A refused argument or a fail-closed read
      answers Unavailable. The histories are carried along as in `Lifecycle`. */
  ghost function RedisCall(s: World, call: Call): (World, Answer) {
    match call
    case AcquireCall(m, owner) =>
      if m.accession in s.keys.leases then (s, Granted(None))
      else (s.(keys := s.keys.(leases := s.keys.leases[m.accession := Lease(owner, s.now + L.MAX_LEASE_SECONDS)])),
            Granted(Some(AccessionLease(m.accession, owner))))
    case ReleaseCall(lease) =>
      var reply := LeaseReleaseScript(s.keys, lease.accession, lease.owner);
      (s.(keys := reply.keys), Flag(reply.code == 1))
    case GetActiveCall(a) =>
      if a !in s.keys.active then (s, ActiveAnswer(None))
      else if L.ActiveRecordAccepted(s.keys, a, s.keys.active[a])
      then (s, ActiveAnswer(Some(s.keys.gens[GenerationKey(a, s.keys.active[a])].value.manifest)))
      else (s, Unavailable)
    case ListActiveCall(scope) =>
      if forall a | a in Members(s.keys.index, scope) :: a in s.keys.active && L.ActiveRecordAccepted(s.keys, a, s.keys.active[a])
      then (s, Manifests(set a | a in Members(s.keys.index, scope) && a in s.keys.active
                                 && GenerationKey(a, s.keys.active[a]) in s.keys.gens
                           :: s.keys.gens[GenerationKey(a, s.keys.active[a])].value.manifest))
      else (s, Unavailable)
    case GetStageCall(m) =>
      if KeyOf(m) !in s.keys.gens then (s, StageAnswer(None))
      else if s.keys.gens[KeyOf(m)].value.manifest != m then (s, Unavailable)
      else (s, StageAnswer(Some(s.keys.gens[KeyOf(m)].value)))
    case StageCall(lease, m) =>
      if lease.accession != m.accession then (s, Unavailable)
      else StageReply(s, StageScript(s.keys, lease.accession, lease.owner, m), StagedRecord(m))
    case VerifyCall(lease, staged, proof) =>
      if staged.state != Staged || lease.accession != staged.manifest.accession || !proof.Proves(staged.manifest)
      then (s, Unavailable)
      else
        var verified := staged.(state := Verified, proof := Some(proof));
        StageReply(s, SwapScript(s.keys, lease.accession, lease.owner, staged, verified, false), verified)
    case PublishCall(lease, verified, expected, superseded) =>
      if !PublishArguments(lease, verified, expected, verified.manifest, superseded) then (s, Unavailable)
      else
        var m := verified.manifest;
        var reply := PublishScript(s.keys, lease.accession, lease.owner, verified, verified.WithState(Published),
                                   expected, PendingFor(superseded, m.gen));
        var t := s.(keys := reply.keys);
        (if reply.code == 1 then t.(history := s.history[m.accession := L.HistoryOf(s.history, m.accession) + [m.gen]]) else t,
         Flag(reply.code == 1))
    case ListPendingCall(scope) =>
      if forall k | k in Members(s.keys.cleanupIndex, scope) :: L.PendingAccepted(s.keys, scope, k)
      then (s, CleanupList(set k | k in Members(s.keys.cleanupIndex, scope) && k in s.keys.cleanups :: s.keys.cleanups[k].value))
      else (s, Unavailable)
    case MarkCleanedCall(lease, c) =>
      if c.state != Pending || lease.accession != c.superseded.accession then (s, Unavailable)
      else
        var a := lease.accession;
        var reply := CleanSupersededScript(s.keys, a, lease.owner, c);
        var t := s.(keys := reply.keys);
        (if reply.code == 1 then t.(cleaned := s.cleaned[a := L.CleanedOf(s.cleaned, a) + {c.superseded.gen}]) else t,
         CleanupAnswer(if reply.code == 1 then Some(c.(state := Done)) else None))
    case AbortCall(lease, stage) =>
      if stage.state !in {Staged, Verified} || lease.accession != stage.manifest.accession then (s, Unavailable)
      else StageReply(s, SwapScript(s.keys, lease.accession, lease.owner, stage, stage.WithState(Aborted), false),
                      stage.WithState(Aborted))
    case CleanCall(lease, aborted) =>
      if aborted.state != Aborted || lease.accession != aborted.manifest.accession then (s, Unavailable)
      else StageReply(s, SwapScript(s.keys, lease.accession, lease.owner, aborted, aborted.WithState(Cleaned), true),
                      aborted.WithState(Cleaned))
  }

  // ---------------------------------------------------------------- the relation and the driver's discipline

  /** A generation ID is the digest of, among others, its filing, so it names one filing only. */
  ghost predicate GenerationsNamed(gens: Records) {
    forall k, k' | k in gens && k' in gens && k.gen == k'.gen :: k == k'
  }

  ghost predicate LeasesAgree(s: World, m: Memory) {
    forall lease: AccessionLease :: lease in m.leases <==> s.keys.Owns(lease.accession, lease.owner)
  }

  ghost predicate IsActive(s: World, item: Manifest) {
    item.accession in s.keys.active && s.keys.active[item.accession] == item.gen && PublishedAs(s.keys.gens, item)
  }

  ghost predicate ActiveAgrees(s: World, m: Memory) {
    forall item :: item in m.active <==> IsActive(s, item)
  }

  ghost predicate StagesAgree(s: World, m: Memory) {
    forall r :: r in m.stages <==> s.keys.Holds(KeyOf(r.manifest), r)
  }

  ghost predicate IsPending(s: World, c: CleanupRecord) {
    c.state == Pending && c.Key() in s.keys.cleanups && s.keys.cleanups[c.Key()].value == c
  }

  ghost predicate PendingAgrees(s: World, m: Memory) {
    forall c :: c in m.pending <==> IsPending(s, c)
  }

  ghost predicate Abstracts(s: World, m: Memory) {
    && KeysOk(s) && GenerationsNamed(s.keys.gens)
    && LeasesAgree(s, m) && ActiveAgrees(s, m) && StagesAgree(s, m) && PendingAgrees(s, m)
  }

  /** The arguments the ingestion driver passes: its own manifest under its own lease, records and
      manifests it was given by earlier calls, one manifest per generation ID. */
  ghost predicate Disciplined(s: World, call: Call) {
    match call
    case GetStageCall(m) => forall k | k in s.keys.gens && k.gen == m.gen :: s.keys.gens[k].value.manifest == m
    case StageCall(lease, m) =>
      lease.accession == m.accession && m.Valid() && forall k | k in s.keys.gens && k.gen == m.gen :: k.accession == m.accession
    case VerifyCall(lease, staged, proof) =>
      && staged.manifest.Valid() && lease.accession == staged.manifest.accession
      && staged == StagedRecord(staged.manifest) && proof == FromPointIds(staged.manifest.gen, staged.manifest.chunkIds)
    case PublishCall(lease, verified, expected, superseded) =>
      && verified.manifest.Valid() && verified == VerifiedRecord(verified.manifest)
      && PublishArguments(lease, verified, expected, verified.manifest, superseded)
      && (superseded.Some? ==> PublishedAs(s.keys.gens, superseded.value))
    case MarkCleanedCall(lease, c) => CleanupKnown(s, lease.accession, c)
    case AbortCall(lease, stage) =>
      && stage.manifest.Valid() && lease.accession == stage.manifest.accession
      && (stage == StagedRecord(stage.manifest) || stage == VerifiedRecord(stage.manifest))
    case CleanCall(lease, aborted) =>
      && aborted.manifest.Valid() && lease.accession == aborted.manifest.accession
      && (aborted == StagedRecord(aborted.manifest).WithState(Aborted) || aborted == VerifiedRecord(aborted.manifest).WithState(Aborted))
    case _ => true
  }

  /** Both planes answer alike and stay related. */
  ghost predicate Agrees(s: World, m: Memory, call: Call) {
    && RedisCall(s, call).1 == MemoryCall(m, call).1 != Unavailable
    && Abstracts(RedisCall(s, call).0, MemoryCall(m, call).0)
  }

  // ---------------------------------------------------------------- one call

  lemma ActiveFound(s: World, m: Memory, a: Accession)
    requires Abstracts(s, m)
    ensures a in s.keys.active ==>
              && L.ActiveRecordAccepted(s.keys, a, s.keys.active[a])
              && FindActive(m, a) == Some(s.keys.gens[GenerationKey(a, s.keys.active[a])].value.manifest)
    ensures a !in s.keys.active ==> FindActive(m, a) == None
  {
    hide CleanupsOk, CleanupsComplete, CleanupIndexOk, IndexOk;
    if a in s.keys.active {
      F.ActivePointerAccepted(s, a);
      F.PublishedIsProven(s, GenerationKey(a, s.keys.active[a]));
      var item := s.keys.gens[GenerationKey(a, s.keys.active[a])].value.manifest;
      assert IsActive(s, item) && item in m.active;
      var found := FindActive(m, a);
      assert found.Some? && IsActive(s, found.value);
    }
  }

  /** Only leases changed, and they still agree. */
  lemma OnlyLeasesChange(s: World, leases: map<Accession, Lease>, m: Memory, n: Memory)
    requires Abstracts(s, m) && n == m.(leases := n.leases)
    requires LeasesAgree(s.(keys := s.keys.(leases := leases)), n)
    ensures Abstracts(s.(keys := s.keys.(leases := leases)), n)
  {
    F.LeasesKeep(s, leases);
    hide KeysOk;
    var t := s.(keys := s.keys.(leases := leases));
    assert forall item :: IsActive(t, item) <==> IsActive(s, item);
    assert forall c :: IsPending(t, c) <==> IsPending(s, c);
  }

  lemma AcquireAgrees(s: World, m: Memory, manifest: Manifest, owner: string)
    requires Abstracts(s, m)
    ensures Agrees(s, m, AcquireCall(manifest, owner))
  {
    hide KeysOk, ActiveAgrees, StagesAgree, PendingAgrees;
    var a := manifest.accession;
    if a in s.keys.leases {
      assert AccessionLease(a, s.keys.leases[a].owner) in m.leases;
    } else {
      var t, n := RedisCall(s, AcquireCall(manifest, owner)).0, MemoryCall(m, AcquireCall(manifest, owner)).0;
      OnlyLeasesChange(s, t.keys.leases, m, n);
    }
  }

  lemma ReleaseAgrees(s: World, m: Memory, lease: AccessionLease)
    requires Abstracts(s, m)
    ensures Agrees(s, m, ReleaseCall(lease))
  {
    hide KeysOk, ActiveAgrees, StagesAgree, PendingAgrees;
    if s.keys.Owns(lease.accession, lease.owner) {
      var t, n := RedisCall(s, ReleaseCall(lease)).0, MemoryCall(m, ReleaseCall(lease)).0;
      OnlyLeasesChange(s, t.keys.leases, m, n);
    }
  }

  lemma ReadCallsAgree(s: World, m: Memory, call: Call)
    requires Abstracts(s, m) && Disciplined(s, call) && (call.GetActiveCall? || call.ListActiveCall? || call.GetStageCall? || call.ListPendingCall?)
    ensures Agrees(s, m, call)
  {
    match call
    case GetActiveCall(a) => ActiveFound(s, m, a);
    case ListActiveCall(scope) => ListActiveAgrees(s, m, scope);
    case GetStageCall(manifest) => GetStageAgrees(s, m, manifest);
    case ListPendingCall(scope) => ListPendingAgrees(s, m, scope);
  }

  lemma GetStageAgrees(s: World, m: Memory, manifest: Manifest)
    requires Abstracts(s, m) && Disciplined(s, GetStageCall(manifest))
    ensures Agrees(s, m, GetStageCall(manifest))
  {
    hide CleanupsOk, CleanupsComplete, CleanupIndexOk, IndexOk, HistoryOk;
    if KeyOf(manifest) in s.keys.gens {
      assert s.keys.gens[KeyOf(manifest)].value in m.stages;
    }
  }

  lemma ListActiveAgrees(s: World, m: Memory, scope: Scope)
    requires Abstracts(s, m)
    ensures Agrees(s, m, ListActiveCall(scope))
  {
    var answer := RedisCall(s, ListActiveCall(scope)).1;
    forall a | a in Members(s.keys.index, scope)
      ensures a in s.keys.active && L.ActiveRecordAccepted(s.keys, a, s.keys.active[a])
    {
      ActiveFound(s, m, a);
    }
    forall item | item in m.active && item.accession.scope == scope ensures item in answer.manifests {
      assert IsActive(s, item);
      assert item.accession in Members(s.keys.index, scope);
    }
    forall item | item in answer.manifests ensures item in m.active && item.accession.scope == scope {
      var a :| a in Members(s.keys.index, scope) && a in s.keys.active && GenerationKey(a, s.keys.active[a]) in s.keys.gens
               && item == s.keys.gens[GenerationKey(a, s.keys.active[a])].value.manifest;
      F.ActivePointerAccepted(s, a);
      F.PublishedIsProven(s, GenerationKey(a, s.keys.active[a]));
      assert IsActive(s, item);
    }
    assert answer.manifests == MemoryCall(m, ListActiveCall(scope)).1.manifests;
  }

  lemma ListPendingAgrees(s: World, m: Memory, scope: Scope)
    requires Abstracts(s, m)
    ensures Agrees(s, m, ListPendingCall(scope))
  {
    hide HistoryOk, IndexOk, CleanupsComplete, RecordsOk;
    forall k | k in Members(s.keys.cleanupIndex, scope) ensures L.PendingAccepted(s.keys, scope, k) {
      assert CleanupOk(s.keys.gens, s.history, s.cleaned, k, s.keys.cleanups[k]);
    }
    var answer := RedisCall(s, ListPendingCall(scope)).1;
    forall c | c in m.pending && c.superseded.accession.scope == scope ensures c in answer.cleanups {
      assert IsPending(s, c);
      assert c.Key() in Members(s.keys.cleanupIndex, scope);
    }
    forall c | c in answer.cleanups ensures c in m.pending && c.superseded.accession.scope == scope {
      var k :| k in Members(s.keys.cleanupIndex, scope) && k in s.keys.cleanups && c == s.keys.cleanups[k].value;
      assert L.PendingAccepted(s.keys, scope, k) && IsPending(s, c);
    }
    assert answer.cleanups == MemoryCall(m, ListPendingCall(scope)).1.cleanups;
  }

  /** Replacing the record of one generation on both sides. */
  lemma ReplaceAgrees(s: World, m: Memory, k: GenerationKey, kept: Kept<Record>)
    requires Abstracts(s, m) && !PublishedAt(s.keys.gens, k) && KeyOf(kept.value.manifest) == k
    requires kept.value.Canonical() && kept.value.state != Published && (kept.volatile ==> kept.value.state == Cleaned)
    requires forall k' | k' in s.keys.gens && k'.gen == k.gen :: k' == k
    ensures Abstracts(s.(keys := s.keys.(gens := s.keys.gens[k := kept])), m.ReplaceStage(kept.value))
  {
    hide KeysOk, ActiveAgrees, PendingAgrees, StagesAgree, Evolves, Distinct;
    WriteRecordKeeps(s, k, kept);
    var t, n := s.(keys := s.keys.(gens := s.keys.gens[k := kept])), m.ReplaceStage(kept.value);
    StagesReplaced(s, t, m, k, kept);
    ActiveUnaffected(s, t, m, n, k);
    PendingUnaffected(s, t, m, n);
  }

  lemma ActiveUnaffected(s: World, t: World, m: Memory, n: Memory, k: GenerationKey)
    requires ActiveAgrees(s, m) && n.active == m.active && t.keys.active == s.keys.active
    requires !PublishedAt(s.keys.gens, k) && !PublishedAt(t.keys.gens, k)
    requires k in t.keys.gens && t.keys.gens == s.keys.gens[k := t.keys.gens[k]]
    ensures ActiveAgrees(t, n)
  {
    assert forall item :: IsActive(t, item) <==> IsActive(s, item);
  }

  lemma PendingUnaffected(s: World, t: World, m: Memory, n: Memory)
    requires PendingAgrees(s, m) && n.pending == m.pending && t.keys.cleanups == s.keys.cleanups
    ensures PendingAgrees(t, n)
  {
    assert forall c :: IsPending(t, c) <==> IsPending(s, c);
  }

  lemma StagesReplaced(s: World, t: World, m: Memory, k: GenerationKey, kept: Kept<Record>)
    requires StagesAgree(s, m) && KeyOf(kept.value.manifest) == k
    requires forall k' | k' in s.keys.gens && k'.gen == k.gen :: k' == k
    requires t.keys.gens == s.keys.gens[k := kept]
    ensures StagesAgree(t, m.ReplaceStage(kept.value))
  {
    var n := m.ReplaceStage(kept.value);
    forall r ensures r in n.stages <==> t.keys.Holds(KeyOf(r.manifest), r) {
      if r != kept.value {
        assert r in n.stages <==> r in m.stages && r.manifest.gen != k.gen;
      }
    }
  }

  lemma StageCallAgrees(s: World, m: Memory, lease: AccessionLease, manifest: Manifest)
    requires Abstracts(s, m) && Disciplined(s, StageCall(lease, manifest))
    ensures Agrees(s, m, StageCall(lease, manifest))
  {
    var key := KeyOf(manifest);
    var existing := First(m.stages, (item: Record) => item.manifest.gen == manifest.gen);
    hide KeysOk, ActiveAgrees, PendingAgrees, StagesAgree, GenerationsNamed, Distinct;
    ExistingStage(s, m, manifest);
    if m.Owns(lease, manifest) && (existing.None? || existing.value in RecoverableRecords(manifest)) {
      if existing.Some? {
        RecoverableExactly(manifest, existing.value);
      }
      ReplaceAgrees(s, m, key, Kept(StagedRecord(manifest), false));
    }
  }

  lemma ExistingStage(s: World, m: Memory, manifest: Manifest)
    requires Abstracts(s, m) && forall k | k in s.keys.gens && k.gen == manifest.gen :: k.accession == manifest.accession
    ensures First(m.stages, (item: Record) => item.manifest.gen == manifest.gen)
            == if KeyOf(manifest) in s.keys.gens then Some(s.keys.gens[KeyOf(manifest)].value) else None
  {
    hide HistoryOk, IndexOk, CleanupsOk, CleanupsComplete, CleanupIndexOk;
    var existing := First(m.stages, (item: Record) => item.manifest.gen == manifest.gen);
    if KeyOf(manifest) in s.keys.gens {
      assert s.keys.gens[KeyOf(manifest)].value in m.stages;
    }
    if existing.Some? {
      assert s.keys.Holds(KeyOf(existing.value.manifest), existing.value);
    }
  }

  lemma SwapAgrees(s: World, m: Memory, lease: AccessionLease, from: Record, to: Record, volatile: bool)
    requires Abstracts(s, m) && from.manifest == to.manifest && lease.accession == from.manifest.accession
    requires from.state != Published && to.Canonical() && to.state != Published && (volatile ==> to.state == Cleaned)
    ensures var r := SwapScript(s.keys, lease.accession, lease.owner, from, to, volatile);
            && (r.code == 1 <==> m.Owns(lease, from.manifest) && from in m.stages)
            && Abstracts(s.(keys := r.keys), if r.code == 1 then m.ReplaceStage(to) else m)
  {
    hide KeysOk;
    if SwapScript(s.keys, lease.accession, lease.owner, from, to, volatile).code == 1 {
      ReplaceAgrees(s, m, KeyOf(from.manifest), Kept(to, volatile));
    }
  }

  lemma SwapCallsAgree(s: World, m: Memory, call: Call)
    requires Abstracts(s, m) && Disciplined(s, call) && (call.VerifyCall? || call.AbortCall? || call.CleanCall?)
    ensures Agrees(s, m, call)
  {
    hide KeysOk, Abstracts, SwapScript;
    match call
    case VerifyCall(lease, staged, proof) =>
      SwapAgrees(s, m, lease, staged, staged.(state := Verified, proof := Some(proof)), false);
    case AbortCall(lease, stage) => SwapAgrees(s, m, lease, stage, stage.WithState(Aborted), false);
    case CleanCall(lease, aborted) => SwapAgrees(s, m, lease, aborted, aborted.WithState(Cleaned), true);
  }

  // ---------------------------------------------------------------- publication

  /** The publish call as the driver's publish step sees it. */
  ghost function Publisher(lease: AccessionLease, verified: Record, superseded: Option<Manifest>): L.Worker {
    L.Worker(verified.manifest, lease.owner, 0.0, false, L.Publish, superseded, Some(verified), false)
  }

  ghost predicate PublishDiscipline(s: World, lease: AccessionLease, verified: Record,
                                    expected: Option<string>, superseded: Option<Manifest>)
  {
    && verified.manifest.Valid() && verified == VerifiedRecord(verified.manifest)
    && PublishArguments(lease, verified, expected, verified.manifest, superseded)
    && (superseded.Some? ==> PublishedAs(s.keys.gens, superseded.value))
  }

  /** Both planes accept the same publications. */
  lemma PublishDecisionAgrees(s: World, m: Memory, lease: AccessionLease, verified: Record,
                              expected: Option<string>, superseded: Option<Manifest>)
    requires Abstracts(s, m) && PublishDiscipline(s, lease, verified, expected, superseded)
    ensures PublishInMemory(m, lease, verified, expected, superseded).1
              == Flag(L.PublishReply(s, Publisher(lease, verified, superseded)).code == 1)
  {
    hide KeysOk, ActiveAgrees, PendingAgrees, GenerationsNamed, Distinct, FindActive;
    ActiveFound(s, m, lease.accession);
    T.CleanupKeyIsFree(s, Publisher(lease, verified, superseded));
    assert m.Owns(lease, verified.manifest) <==> s.keys.Owns(lease.accession, lease.owner);
    assert verified in m.stages <==> s.keys.Holds(KeyOf(verified.manifest), verified);
  }

  lemma ActivationAgrees(s: World, t: World, m: Memory, n: Memory, manifest: Manifest)
    requires ActiveAgrees(s, m)
    requires !PublishedAt(s.keys.gens, KeyOf(manifest))
    requires t.keys.gens == s.keys.gens[KeyOf(manifest) := Kept(PublishedRecord(manifest), false)]
    requires t.keys.active == s.keys.active[manifest.accession := manifest.gen]
    requires n.active == Keep(m.active, (item: Manifest) => item.accession != manifest.accession) + [manifest]
    ensures ActiveAgrees(t, n)
  {
    forall item ensures item in n.active <==> IsActive(t, item) {
      if item.accession != manifest.accession {
        assert item in m.active <==> IsActive(s, item);
        assert KeyOf(item) != KeyOf(manifest);
      }
    }
  }

  /** The generation being superseded has no cleanup record yet. */
  lemma NoPendingForActive(s: World, superseded: Manifest, c: CleanupRecord)
    requires KeysOk(s) && GenerationsNamed(s.keys.gens) && IsPending(s, c)
    requires PublishedAs(s.keys.gens, superseded)
    requires superseded.accession in s.keys.active && s.keys.active[superseded.accession] == superseded.gen
    ensures c.superseded.gen != superseded.gen
  {
    assert CleanupOk(s.keys.gens, s.history, s.cleaned, c.Key(), s.keys.cleanups[c.Key()]);
    if c.superseded.gen == superseded.gen {
      assert KeyOf(c.superseded) == KeyOf(superseded);
      FollowsNotLast(s.history[superseded.accession], superseded.gen, c.replacement);
    }
  }

  lemma SupersessionAgrees(s: World, t: World, m: Memory, n: Memory, c: CleanupRecord)
    requires PendingAgrees(s, m) && c.state == Pending
    requires forall p | IsPending(s, p) :: p.superseded.gen != c.superseded.gen
    requires t.keys.cleanups == s.keys.cleanups[c.Key() := Kept(c, false)]
    requires n.pending == Keep(m.pending, (item: CleanupRecord) => item.superseded.gen != c.superseded.gen) + [c]
    ensures PendingAgrees(t, n)
  {
    forall p ensures p in n.pending <==> IsPending(t, p) {
      if p != c {
        assert p in n.pending <==> p in m.pending && p.superseded.gen != c.superseded.gen;
        assert p in m.pending <==> IsPending(s, p);
      }
    }
  }

  lemma PublishedStagesAgree(s: World, t: World, m: Memory, n: Memory, manifest: Manifest)
    requires n.stages == m.ReplaceStage(PublishedRecord(manifest)).stages && StagesAgree(s, m)
    requires GenerationsNamed(s.keys.gens) && KeyOf(manifest) in s.keys.gens
    requires t.keys.gens == s.keys.gens[KeyOf(manifest) := Kept(PublishedRecord(manifest), false)]
    ensures StagesAgree(t, n) && GenerationsNamed(t.keys.gens)
  {
    StagesReplaced(s, t, m, KeyOf(manifest), Kept(PublishedRecord(manifest), false));
  }

  lemma PublishPendingAgrees(s: World, m: Memory, n: Memory, w: L.Worker)
    requires KeysOk(s) && GenerationsNamed(s.keys.gens) && PendingAgrees(s, m) && CanPublish(s, w)
    requires n.pending == if w.current.None? then m.pending
                          else Keep(m.pending, (item: CleanupRecord) => item.superseded.gen != w.current.value.gen)
                               + [CleanupRecord(w.current.value, w.manifest.gen, Pending)]
    ensures PendingAgrees(PublishedWorld(s, w), n)
  {
    PublishWrites(s, w);
    hide KeysOk, L.PublishReply;
    var t := PublishedWorld(s, w);
    if w.current.None? {
      assert forall c :: IsPending(t, c) <==> IsPending(s, c);
    } else {
      forall p | IsPending(s, p) ensures p.superseded.gen != w.current.value.gen {
        NoPendingForActive(s, w.current.value, p);
      }
      SupersessionAgrees(s, t, m, n, CleanupRecord(w.current.value, w.manifest.gen, Pending));
    }
  }

  lemma PublishedAbstracts(s: World, m: Memory, n: Memory, w: L.Worker)
    requires Abstracts(s, m) && CanPublish(s, w)
    requires n.leases == m.leases && n.stages == m.ReplaceStage(PublishedRecord(w.manifest)).stages
    requires n.active == Keep(m.active, (item: Manifest) => item.accession != w.Filing()) + [w.manifest]
    requires n.pending == if w.current.None? then m.pending
                          else Keep(m.pending, (item: CleanupRecord) => item.superseded.gen != w.current.value.gen)
                               + [CleanupRecord(w.current.value, w.manifest.gen, Pending)]
    ensures Abstracts(PublishedWorld(s, w), n)
  {
    PublishWrites(s, w);
    PublishKeeps(s, w);
    PublishLeavesLeases(s, m, n, w);
    PublishPendingAgrees(s, m, n, w);
    CanPublishFresh(s, w);
    hide KeysOk, L.PublishReply, LeasesAgree, ActiveAgrees, PendingAgrees, StagesAgree, GenerationsNamed, CanPublish;
    var t := PublishedWorld(s, w);
    ActivationAgrees(s, t, m, n, w.manifest);
    PublishedStagesAgree(s, t, m, n, w.manifest);
  }

  lemma CanPublishFresh(s: World, w: L.Worker)
    requires CanPublish(s, w)
    ensures KeyOf(w.manifest) in s.keys.gens && !PublishedAt(s.keys.gens, KeyOf(w.manifest))
  {
    hide KeysOk;
  }

  lemma PublishLeavesLeases(s: World, m: Memory, n: Memory, w: L.Worker)
    requires LeasesAgree(s, m) && n.leases == m.leases && L.PublishReply(s, w).code == 1
    ensures LeasesAgree(PublishedWorld(s, w), n)
  {
    PublishWrites(s, w);
    hide L.PublishReply;
  }

  lemma PublishCallAgrees(s: World, m: Memory, lease: AccessionLease, verified: Record,
                          expected: Option<string>, superseded: Option<Manifest>)
    requires Abstracts(s, m) && Disciplined(s, PublishCall(lease, verified, expected, superseded))
    ensures Agrees(s, m, PublishCall(lease, verified, expected, superseded))
  {
    var w := Publisher(lease, verified, superseded);
    PublishDecisionAgrees(s, m, lease, verified, expected, superseded);
    hide KeysOk, ActiveAgrees, PendingAgrees, StagesAgree, LeasesAgree, GenerationsNamed, PublishScript;
    var reply := L.PublishReply(s, w);
    assert RedisCall(s, PublishCall(lease, verified, expected, superseded)).1 == Flag(reply.code == 1);
    if reply.code == 1 {
      PublishedAbstracts(s, m, PublishInMemory(m, lease, verified, expected, superseded).0, w);
    } else {
      PublishRefusedWritesNothing(s, w);
    }
  }

  // ---------------------------------------------------------------- cleanup of a superseded generation

  lemma CompletionAgrees(s: World, t: World, m: Memory, n: Memory, c: CleanupRecord)
    requires PendingAgrees(s, m) && IsPending(s, c)
    requires t.keys.cleanups == s.keys.cleanups[c.Key() := Kept(c.(state := Done), true)]
    requires n.pending == Keep(m.pending, (item: CleanupRecord) => item != c)
    ensures PendingAgrees(t, n)
  {
    forall p ensures p in n.pending <==> IsPending(t, p) {
      assert p in n.pending <==> p in m.pending && p != c;
      assert p in m.pending <==> IsPending(s, p);
    }
  }

  /** Both planes complete the same cleanups. */
  lemma CompletionDecisionAgrees(s: World, m: Memory, lease: AccessionLease, c: CleanupRecord)
    requires Abstracts(s, m) && CleanupKnown(s, lease.accession, c)
    ensures MemoryCall(m, MarkCleanedCall(lease, c))
              == if CleanSupersededScript(s.keys, lease.accession, lease.owner, c).code == 1
                 then (m.(pending := Keep(m.pending, (item: CleanupRecord) => item != c)), CleanupAnswer(Some(c.(state := Done))))
                 else (m, CleanupAnswer(None))
  {
    hide KeysOk, ActiveAgrees, StagesAgree, GenerationsNamed, FindActive, PublishedAs, Follows;
    T.KnownNotActive(s, lease.accession, c);
    ActiveFound(s, m, lease.accession);
    ActiveGeneration(s, lease.accession);
    assert m.Owns(lease, c.superseded) <==> s.keys.Owns(lease.accession, lease.owner);
    assert c in m.pending <==> IsPending(s, c);
  }

  lemma ActiveGeneration(s: World, a: Accession)
    requires KeysOk(s) && a in s.keys.active
    ensures GenerationKey(a, s.keys.active[a]) in s.keys.gens
    ensures s.keys.gens[GenerationKey(a, s.keys.active[a])].value.manifest.gen == s.keys.active[a]
  {
    F.ActivePointerAccepted(s, a);
  }

  lemma MarkCleanedAgrees(s: World, m: Memory, lease: AccessionLease, c: CleanupRecord)
    requires Abstracts(s, m) && Disciplined(s, MarkCleanedCall(lease, c))
    ensures Agrees(s, m, MarkCleanedCall(lease, c))
  {
    hide KeysOk, MemoryCall, LeasesAgree, ActiveAgrees, StagesAgree, PendingAgrees, GenerationsNamed, Evolves, PublishedAs, Follows;
    CompletionDecisionAgrees(s, m, lease, c);
    if CleanSupersededScript(s.keys, lease.accession, lease.owner, c).code == 1 {
      CleanSupersededKeeps(s, lease.owner, c);
      var t := CleanedWorld(s, lease.owner, c);
      var n := m.(pending := Keep(m.pending, (item: CleanupRecord) => item != c));
      CompletionAgrees(s, t, m, n, c);
      CleanedOthersAgree(s, t, m, n);
    }
  }

  lemma CleanedOthersAgree(s: World, t: World, m: Memory, n: Memory)
    requires LeasesAgree(s, m) && ActiveAgrees(s, m) && StagesAgree(s, m) && GenerationsNamed(s.keys.gens)
    requires t.keys.leases == s.keys.leases && t.keys.active == s.keys.active && t.keys.gens == s.keys.gens
    requires n == m.(pending := n.pending)
    ensures LeasesAgree(t, n) && ActiveAgrees(t, n) && StagesAgree(t, n) && GenerationsNamed(t.keys.gens)
  {
    assert forall item :: IsActive(t, item) <==> IsActive(s, item);
  }

  // ---------------------------------------------------------------- every call, every sequence of calls

  lemma CallAgrees(s: World, m: Memory, call: Call)
    requires Abstracts(s, m) && Disciplined(s, call)
    ensures Agrees(s, m, call)
  {
    hide *;
    match call
    case AcquireCall(manifest, owner) => AcquireAgrees(s, m, manifest, owner);
    case ReleaseCall(lease) => ReleaseAgrees(s, m, lease);
    case StageCall(lease, manifest) => StageCallAgrees(s, m, lease, manifest);
    case PublishCall(lease, verified, expected, superseded) =>
      PublishCallAgrees(s, m, lease, verified, expected, superseded);
    case MarkCleanedCall(lease, c) => MarkCleanedAgrees(s, m, lease, c);
    case VerifyCall(_, _, _) => SwapCallsAgree(s, m, call);
    case AbortCall(_, _) => SwapCallsAgree(s, m, call);
    case CleanCall(_, _) => SwapCallsAgree(s, m, call);
    case _ => ReadCallsAgree(s, m, call);
  }

  /** The control-plane call the driver makes in each phase; a read of several commands is one call. */
  ghost function CallOf(w: L.Worker): Option<Call> {
    var lease := AccessionLease(w.Filing(), w.owner);
    match w.phase
    case Acquire => Some(AcquireCall(w.manifest, w.owner))
    case ReadActive => Some(GetActiveCall(w.Filing()))
    case RecoveryList => Some(ListPendingCall(w.Filing().scope))
    case RecoveryStage => Some(GetStageCall(w.manifest))
    case Stage => Some(StageCall(lease, w.manifest))
    case MarkVerified => Some(VerifyCall(lease, StagedRecord(w.manifest), FromPointIds(w.manifest.gen, w.manifest.chunkIds)))
    case Publish =>
      Some(PublishCall(lease, VerifiedRecord(w.manifest), if w.current.None? then None else Some(w.current.value.gen), w.current))
    case ConfirmActive => Some(GetActiveCall(w.Filing()))
    case CleanupList => Some(ListPendingCall(w.Filing().scope))
    case CleanupMark(todo) => if todo == [] then None else Some(MarkCleanedCall(lease, todo[0]))
    case AbortStage => if w.stage.None? then None else Some(AbortCall(lease, w.stage.value))
    case AbortClean(aborted) => Some(CleanCall(lease, aborted))
    case Release => Some(ReleaseCall(lease))
    case _ => None
  }

  /** The driver keeps the discipline: in every run, whatever call a worker is about to make is
      disciplined, provided its generation ID names no other manifest. */
  lemma DriverIsDisciplined(states: seq<L.System>, events: seq<L.Event>, i: nat, id: nat)
    requires L.Run(None, states, events) && i < |states| && id in states[i].workers
    requires var m := states[i].workers[id].manifest;
             forall k | k in states[i].world.keys.gens && k.gen == m.gen :: states[i].world.keys.gens[k].value.manifest == m
    ensures var call := CallOf(states[i].workers[id]);
            call.Some? ==> Disciplined(states[i].world, call.value)
  {
    F.RunKeeps(states, events, i, i);
    WorkerIsDisciplined(states[i].world, states[i].workers[id]);
  }

  lemma WorkerIsDisciplined(s: World, w: L.Worker)
    requires KeysOk(s) && WorkerOk(s, w)
    requires forall k | k in s.keys.gens && k.gen == w.manifest.gen :: s.keys.gens[k].value.manifest == w.manifest
    ensures CallOf(w).Some? ==> Disciplined(s, CallOf(w).value)
  {
    hide HistoryOk, IndexOk, CleanupsOk, CleanupsComplete, CleanupIndexOk, CleanupKnown, Distinct;
    if w.phase.CleanupMark? {
      F.RestKnown(s, w.Filing(), w.phase.todo);
    }
  }

  ghost predicate Writes(p: L.Phase) {
    || p.Stage? || p.MarkVerified? || p.Publish? || p.CleanupMark? || p.AbortStage? || p.AbortClean? || p.Release?
  }

  /** A delivered write of the driver has exactly the effect of that call on the Redis plane. */
  lemma DeliveredStepIsCall(s: World, w: L.Worker, c: L.Choice)
    requires WorkerOk(s, w) && Writes(w.phase) && c.fate == Delivered
    ensures CallOf(w).Some? && L.Step(s, w, c).world == RedisCall(s, CallOf(w).value).0
  {
    hide PublishScript, SwapScript, StageScript, CleanSupersededScript, LeaseReleaseScript, Distinct, Follows, PublishedAs;
    if w.phase.CleanupMark? {
      F.RestKnown(s, w.Filing(), w.phase.todo);
    }
    if w.phase.Publish? {
      assert PublishArguments(AccessionLease(w.Filing(), w.owner), VerifiedRecord(w.manifest),
                              if w.current.None? then None else Some(w.current.value.gen), w.manifest, w.current);
    }
  }

  ghost function RedisAnswers(s: World, calls: seq<Call>): seq<Answer>
    decreases |calls|
  {
    if calls == [] then [] else [RedisCall(s, calls[0]).1] + RedisAnswers(RedisCall(s, calls[0]).0, calls[1..])
  }

  ghost function MemoryAnswers(m: Memory, calls: seq<Call>): seq<Answer>
    decreases |calls|
  {
    if calls == [] then [] else [MemoryCall(m, calls[0]).1] + MemoryAnswers(MemoryCall(m, calls[0]).0, calls[1..])
  }

  /** Each call keeps the driver's discipline at the moment it is made. */
  ghost predicate AllDisciplined(s: World, calls: seq<Call>)
    decreases |calls|
  {
    calls != [] ==> Disciplined(s, calls[0]) && AllDisciplined(RedisCall(s, calls[0]).0, calls[1..])
  }

  /** The in-memory plane is a faithful stand-in: related planes answer every disciplined sequence of
      calls alike, and no call meets a refused argument or a fail-closed read. */
  lemma {:induction false} PlanesAnswerAlike(s: World, m: Memory, calls: seq<Call>)
    requires Abstracts(s, m) && AllDisciplined(s, calls)
    ensures RedisAnswers(s, calls) == MemoryAnswers(m, calls) && Unavailable !in RedisAnswers(s, calls)
    decreases |calls|
  {
    hide Abstracts, Disciplined, RedisCall, MemoryCall;
    if calls != [] {
      CallAgrees(s, m, calls[0]);
      PlanesAnswerAlike(RedisCall(s, calls[0]).0, MemoryCall(m, calls[0]).0, calls[1..]);
    }
  }

  const EMPTY_MEMORY := Memory([], [], [], [])

  lemma EmptyPlanesAnswerAlike(now: real, calls: seq<Call>)
    requires AllDisciplined(L.World(EMPTY_KEYS, map[], now, map[], map[]), calls)
    ensures var s := L.World(EMPTY_KEYS, map[], now, map[], map[]);
            RedisAnswers(s, calls) == MemoryAnswers(EMPTY_MEMORY, calls) && Unavailable !in RedisAnswers(s, calls)
  {
    PlanesAnswerAlike(L.World(EMPTY_KEYS, map[], now, map[], map[]), EMPTY_MEMORY, calls);
  }
}
