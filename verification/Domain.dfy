/** Filing identities, generation manifests and their lifecycle records.

    SHA-256 digests are taken to be injective and canonical JSON to be faithful, so a digest is
    modelled by the value it was computed from and a serialized record by the record itself. */
module Domain {

  datatype Option<+T> = None | Some(value: T)

  /** The corpus and ticker a query is scoped to. */
  datatype Scope = Scope(corpus: string, symbol: string)

  /** One filing inside a scope; the accession digest names every key of that filing. */
  datatype Accession = Accession(scope: Scope, number: string)

  datatype Manifest = Manifest(accession: Accession, gen: string, contentHash: string, chunkIds: seq<string>) {
    /** What the manifest constructor accepts: a nonempty list of distinct chunk IDs. */
    predicate Valid() {
      |chunkIds| > 0 && Distinct(chunkIds)
    }

    function Chunks(): set<string> {
      set id | id in chunkIds
    }
  }

  /** What becomes of a command: answered, lost before it took effect, or its reply lost after. */
  datatype Fate = Delivered | Dropped | ReplyLost

  predicate Distinct<T(==)>(s: seq<T>) {
    forall i, j :: 0 <= i < j < |s| ==> s[i] != s[j]
  }

  /** Proof that a point set was observed; the ID digest is the ID list it digests. */
  datatype Verification = Verification(gen: string, pointCount: nat, pointIds: seq<string>) {
    predicate Proves(m: Manifest) {
      this == FromPointIds(m.gen, m.chunkIds)
    }
  }

  function FromPointIds(gen: string, ids: seq<string>): Verification {
    Verification(gen, |ids|, ids)
  }

  datatype GenerationState = Staged | Verified | Published | Aborted | Cleaned

  datatype Record = Record(manifest: Manifest, state: GenerationState, proof: Option<Verification>) {
    /** What the record constructor accepts. */
    predicate Valid() {
      && manifest.Valid()
      && (state in {Verified, Published} ==> proof.Some? && proof.value.Proves(manifest))
      && (state == Staged ==> proof.None?)
    }

    /** A record whose proof, if it has one, proves its own manifest. */
    predicate Canonical() {
      Valid() && (proof.Some? ==> proof.value.Proves(manifest))
    }

    function WithState(next: GenerationState): Record {
      this.(state := next)
    }
  }

  function StagedRecord(m: Manifest): Record {
    Record(m, Staged, None)
  }

  function VerifiedRecord(m: Manifest): Record {
    Record(m, Verified, Some(FromPointIds(m.gen, m.chunkIds)))
  }

  function PublishedRecord(m: Manifest): Record {
    VerifiedRecord(m).WithState(Published)
  }

  /** The six records a fresh staging of `m` may overwrite, in the order the script receives them. */
  function RecoverableRecords(m: Manifest): (r: seq<Record>)
    ensures |r| == 6 && r[0] == StagedRecord(m)
  {
    var staged := StagedRecord(m);
    var verified := VerifiedRecord(m);
    var abortedStaged := staged.WithState(Aborted);
    var abortedVerified := verified.WithState(Aborted);
    [staged, verified, abortedStaged, abortedVerified,
     abortedStaged.WithState(Cleaned), abortedVerified.WithState(Cleaned)]
  }

  /** The list is exact: it holds every canonical record of `m` that is not PUBLISHED, and no other. */
  lemma RecoverableExactly(m: Manifest, r: Record)
    requires m.Valid()
    ensures r in RecoverableRecords(m) <==> r.manifest == m && r.Canonical() && r.state != Published
  {
    var records := RecoverableRecords(m);
    if r.manifest == m && r.Canonical() && r.state != Published {
      assert r == records[0] || r == records[1] || r == records[2] || r == records[3]
          || r == records[4] || r == records[5];
    }
  }

  lemma DistinctAppend<T>(s: seq<T>, x: T)
    requires Distinct(s) && x !in s
    ensures Distinct(s + [x])
  {
  }

  function Elements<T>(s: seq<T>): set<T> {
    set x | x in s
  }

  lemma {:induction false} DistinctSize<T>(s: seq<T>)
    requires Distinct(s)
    ensures |Elements(s)| == |s|
  {
    if s != [] {
      var rest := s[..|s| - 1];
      DistinctSize(rest);
      assert Elements(s) == Elements(rest) + {s[|s| - 1]};
    }
  }

  lemma SubsetSize<T>(a: set<T>, b: set<T>)
    requires a <= b
    ensures |a| <= |b|
  {
    assert b == a + (b - a);
  }
}
