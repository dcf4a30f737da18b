/** The in-memory control plane: four lists, searched and rebuilt by every call. */
module MemoryControl {
  import opened Domain
  import opened RedisKeys

  datatype Memory = Memory(
    active: seq<Manifest>, leases: seq<AccessionLease>, stages: seq<Record>, pending: seq<CleanupRecord>)
  {
    predicate Owns(lease: AccessionLease, m: Manifest) {
      lease in leases && lease.accession == m.accession
    }

    function ReplaceStage(r: Record): Memory {
      this.(stages := Keep(stages, (item: Record) => item.manifest.gen != r.manifest.gen) + [r])
    }
  }

  function Keep<T(!new)>(s: seq<T>, keep: T -> bool): (r: seq<T>)
    ensures forall x :: x in r <==> x in s && keep(x)
  {
    if s == [] then [] else (if keep(s[0]) then [s[0]] else []) + Keep(s[1..], keep)
  }

  function First<T>(s: seq<T>, wanted: T -> bool): (r: Option<T>)
    ensures r.Some? ==> r.value in s && wanted(r.value)
    ensures r.None? <==> forall x | x in s :: !wanted(x)
  {
    if s == [] then None else if wanted(s[0]) then Some(s[0]) else First(s[1..], wanted)
  }

  datatype Call =
    | AcquireCall(manifest: Manifest, owner: string)
    | ReleaseCall(lease: AccessionLease)
    | GetActiveCall(accession: Accession)
    | ListActiveCall(scope: Scope)
    | GetStageCall(manifest: Manifest)
    | StageCall(lease: AccessionLease, manifest: Manifest)
    | VerifyCall(lease: AccessionLease, stage: Record, proof: Verification)
    | PublishCall(lease: AccessionLease, stage: Record, expected: Option<string>, superseded: Option<Manifest>)
    | ListPendingCall(scope: Scope)
    | MarkCleanedCall(lease: AccessionLease, cleanup: CleanupRecord)
    | AbortCall(lease: AccessionLease, stage: Record)
    | CleanCall(lease: AccessionLease, stage: Record)

  datatype Answer =
    | Granted(lease: Option<AccessionLease>)
    | Flag(done: bool)
    | ActiveAnswer(manifest: Option<Manifest>)
    | Manifests(manifests: set<Manifest>)
    | StageAnswer(stage: Option<Record>)
    | CleanupList(cleanups: set<CleanupRecord>)
    | CleanupAnswer(cleanup: Option<CleanupRecord>)
    | Unavailable

  function FindActive(m: Memory, a: Accession): Option<Manifest> {
    First(m.active, (item: Manifest) => item.accession == a)
  }

  /** One call on the in-memory control plane; lists are answered as sets. */
  function MemoryCall(m: Memory, call: Call): (Memory, Answer) {
    match call
    case AcquireCall(manifest, owner) =>
      var lease := AccessionLease(manifest.accession, owner);
      if First(m.leases, (item: AccessionLease) => item.accession == manifest.accession).Some? then (m, Granted(None))
      else (m.(leases := m.leases + [lease]), Granted(Some(lease)))
    case ReleaseCall(lease) =>
      if lease !in m.leases then (m, Flag(false))
      else (m.(leases := Keep(m.leases, (item: AccessionLease) => item != lease)), Flag(true))
    case GetActiveCall(a) => (m, ActiveAnswer(FindActive(m, a)))
    case ListActiveCall(scope) => (m, Manifests(set item | item in m.active && item.accession.scope == scope))
    case GetStageCall(manifest) =>
      (m, StageAnswer(First(m.stages, (item: Record) => item.manifest.gen == manifest.gen && item.manifest == manifest)))
    case StageCall(lease, manifest) => StageInMemory(m, lease, manifest)
    case VerifyCall(lease, staged, proof) =>
      if !m.Owns(lease, staged.manifest) || staged.state != Staged || !proof.Proves(staged.manifest) || staged !in m.stages
      then (m, StageAnswer(None))
      else
        var verified := staged.(state := Verified, proof := Some(proof));
        (m.ReplaceStage(verified), StageAnswer(Some(verified)))
    case PublishCall(lease, verified, expected, superseded) => PublishInMemory(m, lease, verified, expected, superseded)
    case ListPendingCall(scope) =>
      (m, CleanupList(set item | item in m.pending && item.state == Pending && item.superseded.accession.scope == scope))
    case MarkCleanedCall(lease, cleanup) =>
      var active := FindActive(m, cleanup.superseded.accession);
      if || !m.Owns(lease, cleanup.superseded) || cleanup !in m.pending || cleanup.state != Pending
         || active.None? || active.value.gen == cleanup.superseded.gen
      then (m, CleanupAnswer(None))
      else (m.(pending := Keep(m.pending, (item: CleanupRecord) => item != cleanup)), CleanupAnswer(Some(cleanup.(state := Done))))
    case AbortCall(lease, stage) =>
      if !m.Owns(lease, stage.manifest) || stage !in m.stages then (m, StageAnswer(None))
      else (m.ReplaceStage(stage.WithState(Aborted)), StageAnswer(Some(stage.WithState(Aborted))))
    case CleanCall(lease, aborted) =>
      if !m.Owns(lease, aborted.manifest) || aborted.state != Aborted || aborted !in m.stages then (m, StageAnswer(None))
      else (m.ReplaceStage(aborted.WithState(Cleaned)), StageAnswer(Some(aborted.WithState(Cleaned))))
  }

  function StageInMemory(m: Memory, lease: AccessionLease, manifest: Manifest): (Memory, Answer) {
    var existing := First(m.stages, (item: Record) => item.manifest.gen == manifest.gen);
    if !m.Owns(lease, manifest) || (existing.Some? && existing.value !in RecoverableRecords(manifest)) then (m, StageAnswer(None))
    else (m.ReplaceStage(RecoverableRecords(manifest)[0]), StageAnswer(Some(RecoverableRecords(manifest)[0])))
  }

  function PublishInMemory(m: Memory, lease: AccessionLease, verified: Record,
                           expected: Option<string>, superseded: Option<Manifest>): (Memory, Answer)
  {
    var manifest := verified.manifest;
    var current := FindActive(m, manifest.accession);
    if || !m.Owns(lease, manifest) || verified.state != Verified || verified !in m.stages
       || (if current.None? then None else Some(current.value.gen)) != expected
       || (superseded.Some? && superseded != current)
       || (current.Some? && current.value != manifest && superseded.None?)
    then (m, Flag(false))
    else
      var activated := m.(active := Keep(m.active, (item: Manifest) => item.accession != manifest.accession) + [manifest]);
      var published := activated.ReplaceStage(verified.WithState(Published));
      (if superseded.None? then published
       else published.(pending := Keep(m.pending, (item: CleanupRecord) => item.superseded.gen != superseded.value.gen)
                                  + [CleanupRecord(superseded.value, manifest.gen, Pending)]),
       Flag(true))
  }

  class InMemoryControlPlane {
    var active: seq<Manifest>
    var leases: seq<AccessionLease>
    var stages: seq<Record>
    var pending: seq<CleanupRecord>

    constructor ()
      ensures State() == Memory([], [], [], [])
    {
      active, leases, stages, pending := [], [], [], [];
    }

    function State(): Memory
      reads this
    {
      Memory(active, leases, stages, pending)
    }

    method SetStage(r: Record)
      modifies this`stages
      ensures State() == old(State()).ReplaceStage(r)
    {
      stages := Keep(stages, (item: Record) => item.manifest.gen != r.manifest.gen) + [r];
    }

    method Acquire(m: Manifest, owner: string) returns (lease: Option<AccessionLease>)
      modifies this
      ensures (State(), Granted(lease)) == MemoryCall(old(State()), AcquireCall(m, owner))
    {
      if First(leases, (item: AccessionLease) => item.accession == m.accession).Some? {
        return None;
      }
      leases := leases + [AccessionLease(m.accession, owner)];
      return Some(AccessionLease(m.accession, owner));
    }

    method Release(lease: AccessionLease) returns (released: bool)
      modifies this
      ensures (State(), Flag(released)) == MemoryCall(old(State()), ReleaseCall(lease))
    {
      if lease !in leases {
        return false;
      }
      leases := Keep(leases, (item: AccessionLease) => item != lease);
      return true;
    }

    method StageManifest(lease: AccessionLease, m: Manifest) returns (staged: Option<Record>)
      modifies this
      ensures (State(), StageAnswer(staged)) == MemoryCall(old(State()), StageCall(lease, m))
    {
      if !State().Owns(lease, m) {
        return None;
      }
      var recoverable := RecoverableRecords(m);
      var existing := First(stages, (item: Record) => item.manifest.gen == m.gen);
      if existing.Some? && existing.value !in recoverable {
        return None;
      }
      SetStage(recoverable[0]);
      return Some(recoverable[0]);
    }

    method Publish(lease: AccessionLease, verified: Record, expected: Option<string>, superseded: Option<Manifest>)
      returns (published: bool)
      modifies this
      ensures (State(), Flag(published)) == MemoryCall(old(State()), PublishCall(lease, verified, expected, superseded))
    {
      var m := verified.manifest;
      if !State().Owns(lease, m) || verified.state != Verified || verified !in stages {
        return false;
      }
      var current := FindActive(State(), m.accession);
      if (if current.None? then None else Some(current.value.gen)) != expected {
        return false;
      }
      if superseded.Some? && superseded != current {
        return false;
      }
      if current.Some? && current.value != m && superseded.None? {
        return false;
      }
      active := Keep(active, (item: Manifest) => item.accession != m.accession) + [m];
      SetStage(verified.WithState(Published));
      if superseded.Some? {
        var record := CleanupRecord(superseded.value, m.gen, Pending);
        pending := Keep(pending, (item: CleanupRecord) => item.superseded.gen != superseded.value.gen) + [record];
      }
      return true;
    }

    method MarkCleaned(lease: AccessionLease, cleanup: CleanupRecord) returns (cleaned: Option<CleanupRecord>)
      modifies this
      ensures (State(), CleanupAnswer(cleaned)) == MemoryCall(old(State()), MarkCleanedCall(lease, cleanup))
    {
      var current := FindActive(State(), cleanup.superseded.accession);
      if || !State().Owns(lease, cleanup.superseded) || cleanup !in pending || cleanup.state != Pending
         || current.None? || current.value.gen == cleanup.superseded.gen {
        return None;
      }
      pending := Keep(pending, (item: CleanupRecord) => item != cleanup);
      return Some(cleanup.(state := Done));
    }

    method Abort(lease: AccessionLease, stage: Record) returns (aborted: Option<Record>)
      modifies this
      ensures (State(), StageAnswer(aborted)) == MemoryCall(old(State()), AbortCall(lease, stage))
    {
      if !State().Owns(lease, stage.manifest) || stage !in stages {
        return None;
      }
      SetStage(stage.WithState(Aborted));
      return Some(stage.WithState(Aborted));
    }

    method Verify(lease: AccessionLease, staged: Record, proof: Verification) returns (verified: Option<Record>)
      modifies this
      ensures (State(), StageAnswer(verified)) == MemoryCall(old(State()), VerifyCall(lease, staged, proof))
    {
      if || !State().Owns(lease, staged.manifest) || staged.state != Staged || !proof.Proves(staged.manifest)
         || staged !in stages {
        return None;
      }
      var next := staged.(state := Verified, proof := Some(proof));
      SetStage(next);
      return Some(next);
    }

    method Clean(lease: AccessionLease, aborted: Record) returns (cleaned: Option<Record>)
      modifies this
      ensures (State(), StageAnswer(cleaned)) == MemoryCall(old(State()), CleanCall(lease, aborted))
    {
      if !State().Owns(lease, aborted.manifest) || aborted.state != Aborted || aborted !in stages {
        return None;
      }
      SetStage(aborted.WithState(Cleaned));
      return Some(aborted.WithState(Cleaned));
    }
  }
}
