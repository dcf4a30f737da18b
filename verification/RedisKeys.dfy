/** The research control plane's generation keys in Redis and its atomic scripts.

    `Keys` is the key space; each `...Script` function is one EVAL command as a transition on it,
    with the script's own return codes. `RedisControl` performs the commands on mutable fields. */
module RedisKeys {
  import opened Domain

  datatype GenerationKey = GenerationKey(accession: Accession, gen: string)

  datatype CleanupKey = CleanupKey(accession: Accession, superseded: string, replacement: string)

  datatype Lease = Lease(owner: string, expires: real)

  /** A stored value; `volatile` says that the key carries a time to live and may vanish. */
  datatype Kept<+T> = Kept(value: T, volatile: bool)

  datatype CleanupState = Pending | Done

  datatype CleanupRecord = CleanupRecord(superseded: Manifest, replacement: string, state: CleanupState) {
    function Key(): CleanupKey {
      CleanupKey(superseded.accession, superseded.gen, replacement)
    }
  }

  datatype Keys = Keys(
    leases: map<Accession, Lease>,
    gens: map<GenerationKey, Kept<Record>>,
    active: map<Accession, string>,
    index: map<Scope, set<Accession>>,
    cleanups: map<CleanupKey, Kept<CleanupRecord>>,
    cleanupIndex: map<Scope, set<CleanupKey>>)
  {
    predicate Owns(a: Accession, owner: string) {
      a in leases && leases[a].owner == owner
    }

    predicate Holds(k: GenerationKey, r: Record) {
      k in gens && gens[k].value == r
    }
  }

  predicate PublishedAt(gens: map<GenerationKey, Kept<Record>>, k: GenerationKey) {
    k in gens && gens[k].value.state == Published
  }

  predicate PublishedAs(gens: map<GenerationKey, Kept<Record>>, m: Manifest) {
    KeyOf(m) in gens && gens[KeyOf(m)].value == PublishedRecord(m)
  }

  const EMPTY_KEYS := Keys(map[], map[], map[], map[], map[], map[])

  function KeyOf(m: Manifest): GenerationKey {
    GenerationKey(m.accession, m.gen)
  }

  /** SMEMBERS, SADD and SREM; an absent set is an empty one. */
  function Members<S, T>(index: map<S, set<T>>, s: S): set<T> {
    if s in index then index[s] else {}
  }

  function Added<S, T>(index: map<S, set<T>>, s: S, x: T): map<S, set<T>> {
    index[s := Members(index, s) + {x}]
  }

  function Removed<S, T>(index: map<S, set<T>>, s: S, x: T): map<S, set<T>> {
    if s in index then index[s := index[s] - {x}] else index
  }

  datatype Reply = Reply(keys: Keys, code: int)

  function LeaseReleaseScript(k: Keys, a: Accession, owner: string): Reply {
    if k.Owns(a, owner) then Reply(k.(leases := k.leases - {a}), 1) else Reply(k, 0)
  }

  function StageScript(k: Keys, a: Accession, owner: string, m: Manifest): Reply {
    var key := GenerationKey(a, m.gen);
    if !k.Owns(a, owner) then Reply(k, -1)
    else if key in k.gens && k.gens[key].value !in RecoverableRecords(m) then Reply(k, -2)
    else Reply(k.(gens := k.gens[key := Kept(StagedRecord(m), false)]), 1)
  }

  /** The verify, abort and clean scripts: replace exactly `from` by `to`, under the lease. */
  function SwapScript(k: Keys, a: Accession, owner: string, from: Record, to: Record, volatile: bool): Reply {
    var key := GenerationKey(a, from.manifest.gen);
    if !k.Owns(a, owner) then Reply(k, -1)
    else if !k.Holds(key, from) then Reply(k, -2)
    else Reply(k.(gens := k.gens[key := Kept(to, volatile)]), 1)
  }

  function PublishScript(k: Keys, a: Accession, owner: string, verified: Record, published: Record,
                         expected: Option<string>, pending: Option<CleanupRecord>): Reply
  {
    var m := verified.manifest;
    var key := GenerationKey(a, m.gen);
    if !k.Owns(a, owner) then Reply(k, -1)
    else if !k.Holds(key, verified) then Reply(k, -2)
    else if expected.None? && a in k.active then Reply(k, -3)
    else if expected.Some? && !(a in k.active && k.active[a] == expected.value) then Reply(k, -3)
    else if pending.Some? && pending.value.Key() in k.cleanups
            && k.cleanups[pending.value.Key()].value != pending.value then Reply(k, -4)
    else
      var base := k.(gens := k.gens[key := Kept(published, false)],
                     active := k.active[a := m.gen],
                     index := Added(k.index, a.scope, a));
      if pending.None? then Reply(base, 1)
      else
        var c := pending.value;
        Reply(base.(cleanups := k.cleanups[c.Key() := Kept(c, false)],
                    cleanupIndex := Added(k.cleanupIndex, c.superseded.accession.scope, c.Key())), 1)
  }

  function CleanSupersededScript(k: Keys, a: Accession, owner: string, pending: CleanupRecord): Reply {
    var key := pending.Key();
    if !k.Owns(a, owner) then Reply(k, -1)
    else if a in k.active && k.active[a] == pending.superseded.gen then Reply(k, -2)
    else if !(key in k.cleanups && k.cleanups[key].value == pending) then Reply(k, 0)
    else Reply(k.(cleanups := k.cleanups[key := Kept(pending.(state := Done), true)],
                  cleanupIndex := Removed(k.cleanupIndex, pending.superseded.accession.scope, key)), 1)
  }

  /** Result of a control-plane call: refused before any command, or the decoded reply. */
  datatype Outcome<+T> = Refused | Answer(value: Option<T>)

  datatype AccessionLease = AccessionLease(accession: Accession, owner: string)

  class RedisControl {
    var leases: map<Accession, Lease>
    var gens: map<GenerationKey, Kept<Record>>
    var active: map<Accession, string>
    var index: map<Scope, set<Accession>>
    var cleanups: map<CleanupKey, Kept<CleanupRecord>>
    var cleanupIndex: map<Scope, set<CleanupKey>>

    constructor ()
      ensures State() == EMPTY_KEYS
    {
      leases, gens, active, index, cleanups, cleanupIndex := map[], map[], map[], map[], map[], map[];
    }

    function State(): Keys
      reads this
    {
      Keys(leases, gens, active, index, cleanups, cleanupIndex)
    }

    /** SET NX EX: a lease is granted only when the accession has none. */
    method AcquireLease(m: Manifest, owner: string, expires: real) returns (lease: Option<AccessionLease>)
      modifies this
      ensures lease == if m.accession in old(leases) then None else Some(AccessionLease(m.accession, owner))
      ensures State() == if lease.None? then old(State())
                         else old(State()).(leases := old(leases)[m.accession := Lease(owner, expires)])
    {
      if m.accession in leases {
        return None;
      }
      leases := leases[m.accession := Lease(owner, expires)];
      return Some(AccessionLease(m.accession, owner));
    }

    method ReleaseLease(lease: AccessionLease) returns (released: bool)
      modifies this
      ensures var r := LeaseReleaseScript(old(State()), lease.accession, lease.owner);
              State() == r.keys && released == (r.code == 1)
    {
      if lease.accession in leases && leases[lease.accession].owner == lease.owner {
        leases := leases - {lease.accession};
        return true;
      }
      return false;
    }

    method StageGeneration(lease: AccessionLease, m: Manifest) returns (staged: Outcome<Record>)
      modifies this
      ensures lease.accession != m.accession ==> staged == Refused && State() == old(State())
      ensures lease.accession == m.accession ==>
                var r := StageScript(old(State()), lease.accession, lease.owner, m);
                State() == r.keys && staged == Answer(if r.code == 1 then Some(StagedRecord(m)) else None)
    {
      if lease.accession != m.accession {
        return Refused;
      }
      var recoverable := RecoverableRecords(m);
      var key := GenerationKey(lease.accession, m.gen);
      if !(lease.accession in leases && leases[lease.accession].owner == lease.owner) {
        return Answer(None);
      }
      if key in gens {
        var i, matched := 0, false;
        while i < |recoverable|
          invariant 0 <= i <= |recoverable|
          invariant matched <==> gens[key].value in recoverable[..i]
        {
          matched := matched || gens[key].value == recoverable[i];
          i := i + 1;
        }
        assert recoverable[..i] == recoverable;
        if !matched {
          return Answer(None);
        }
      }
      gens := gens[key := Kept(recoverable[0], false)];
      return Answer(Some(recoverable[0]));
    }

    method MarkVerified(lease: AccessionLease, staged: Record, proof: Verification) returns (verified: Outcome<Record>)
      modifies this
      ensures verified.Refused? <==>
                staged.state != Staged || lease.accession != staged.manifest.accession || !proof.Proves(staged.manifest)
      ensures verified.Refused? ==> State() == old(State())
      ensures !verified.Refused? ==>
                var next := staged.(state := Verified, proof := Some(proof));
                var r := SwapScript(old(State()), lease.accession, lease.owner, staged, next, false);
                State() == r.keys && verified == Answer(if r.code == 1 then Some(next) else None)
    {
      if staged.state != Staged || lease.accession != staged.manifest.accession || !proof.Proves(staged.manifest) {
        return Refused;
      }
      var next := staged.(state := Verified, proof := Some(proof));
      var done := Swap(lease, staged, next, false);
      return Answer(if done then Some(next) else None);
    }

    method AbortGeneration(lease: AccessionLease, stage: Record) returns (aborted: Outcome<Record>)
      modifies this
      ensures aborted.Refused? <==>
                stage.state !in {Staged, Verified} || lease.accession != stage.manifest.accession
      ensures aborted.Refused? ==> State() == old(State())
      ensures !aborted.Refused? ==>
                var r := SwapScript(old(State()), lease.accession, lease.owner, stage, stage.WithState(Aborted), false);
                State() == r.keys && aborted == Answer(if r.code == 1 then Some(stage.WithState(Aborted)) else None)
    {
      if stage.state !in {Staged, Verified} || lease.accession != stage.manifest.accession {
        return Refused;
      }
      var done := Swap(lease, stage, stage.WithState(Aborted), false);
      return Answer(if done then Some(stage.WithState(Aborted)) else None);
    }

    method CleanGeneration(lease: AccessionLease, aborted: Record) returns (cleaned: Outcome<Record>)
      modifies this
      ensures cleaned.Refused? <==> aborted.state != Aborted || lease.accession != aborted.manifest.accession
      ensures cleaned.Refused? ==> State() == old(State())
      ensures !cleaned.Refused? ==>
                var r := SwapScript(old(State()), lease.accession, lease.owner, aborted, aborted.WithState(Cleaned), true);
                State() == r.keys && cleaned == Answer(if r.code == 1 then Some(aborted.WithState(Cleaned)) else None)
    {
      if aborted.state != Aborted || lease.accession != aborted.manifest.accession {
        return Refused;
      }
      var done := Swap(lease, aborted, aborted.WithState(Cleaned), true);
      return Answer(if done then Some(aborted.WithState(Cleaned)) else None);
    }

    method Swap(lease: AccessionLease, from: Record, to: Record, volatile: bool) returns (done: bool)
      modifies this
      ensures var r := SwapScript(old(State()), lease.accession, lease.owner, from, to, volatile);
              State() == r.keys && done == (r.code == 1)
    {
      if !(lease.accession in leases && leases[lease.accession].owner == lease.owner) {
        return false;
      }
      var key := GenerationKey(lease.accession, from.manifest.gen);
      if !(key in gens && gens[key].value == from) {
        return false;
      }
      gens := gens[key := Kept(to, volatile)];
      return true;
    }

    method PublishGeneration(lease: AccessionLease, verified: Record, expected: Option<string>,
                             m: Manifest, superseded: Option<Manifest>) returns (published: Outcome<()>)
      modifies this
      ensures published.Refused? <==> !PublishArguments(lease, verified, expected, m, superseded)
      ensures published.Refused? ==> State() == old(State())
      ensures !published.Refused? ==>
                var r := PublishScript(old(State()), lease.accession, lease.owner, verified,
                                       verified.WithState(Published), expected, PendingFor(superseded, m.gen));
                State() == r.keys && published == Answer(if r.code == 1 then Some(()) else None)
    {
      if !(verified.state == Verified && verified.manifest == m && verified.proof.Some? && verified.proof.value.Proves(m)) {
        return Refused;
      }
      if lease.accession != m.accession || expected.None? != superseded.None? {
        return Refused;
      }
      if superseded.Some? {
        var previous := superseded.value;
        if previous.accession != m.accession || previous.gen != expected.value || previous.gen == m.gen {
          return Refused;
        }
      }
      var key := GenerationKey(lease.accession, m.gen);
      if !(lease.accession in leases && leases[lease.accession].owner == lease.owner) {
        return Answer(None);
      }
      if !(key in gens && gens[key].value == verified) {
        return Answer(None);
      }
      if expected.None? {
        if lease.accession in active {
          return Answer(None);
        }
      } else if !(lease.accession in active && active[lease.accession] == expected.value) {
        return Answer(None);
      }
      if superseded.Some? {
        var c := CleanupRecord(superseded.value, m.gen, Pending);
        if c.Key() in cleanups && cleanups[c.Key()].value != c {
          return Answer(None);
        }
      }
      gens := gens[key := Kept(verified.WithState(Published), false)];
      active := active[lease.accession := m.gen];
      index := Added(index, lease.accession.scope, lease.accession);
      if superseded.Some? {
        var c := CleanupRecord(superseded.value, m.gen, Pending);
        cleanups := cleanups[c.Key() := Kept(c, false)];
        cleanupIndex := Added(cleanupIndex, c.superseded.accession.scope, c.Key());
      }
      return Answer(Some(()));
    }

    method MarkSupersededCleaned(lease: AccessionLease, pending: CleanupRecord) returns (cleaned: Outcome<CleanupRecord>)
      modifies this
      ensures cleaned.Refused? <==> pending.state != Pending || lease.accession != pending.superseded.accession
      ensures cleaned.Refused? ==> State() == old(State())
      ensures !cleaned.Refused? ==>
                var r := CleanSupersededScript(old(State()), lease.accession, lease.owner, pending);
                State() == r.keys
                && cleaned == Answer(if r.code == 1 then Some(pending.(state := Done)) else None)
    {
      if pending.state != Pending || lease.accession != pending.superseded.accession {
        return Refused;
      }
      if !(lease.accession in leases && leases[lease.accession].owner == lease.owner) {
        return Answer(None);
      }
      if lease.accession in active && active[lease.accession] == pending.superseded.gen {
        return Answer(None);
      }
      var key := pending.Key();
      if !(key in cleanups && cleanups[key].value == pending) {
        return Answer(None);
      }
      cleanups := cleanups[key := Kept(pending.(state := Done), true)];
      cleanupIndex := Removed(cleanupIndex, pending.superseded.accession.scope, key);
      return Answer(Some(pending.(state := Done)));
    }
  }

  /** The argument checks made before the publish script is sent. */
  predicate PublishArguments(lease: AccessionLease, verified: Record, expected: Option<string>,
                             m: Manifest, superseded: Option<Manifest>)
  {
    && verified.state == Verified && verified.manifest == m
    && verified.proof.Some? && verified.proof.value.Proves(m)
    && lease.accession == m.accession
    && (expected.None? <==> superseded.None?)
    && (superseded.Some? ==>
          && superseded.value.accession == m.accession
          && superseded.value.gen == expected.value
          && superseded.value.gen != m.gen)
  }

  function PendingFor(superseded: Option<Manifest>, replacement: string): Option<CleanupRecord> {
    if superseded.None? then None else Some(CleanupRecord(superseded.value, replacement, Pending))
  }
}
