/** Exact verification and inspection of one generation's points over batched fetch responses.

    A response may fail, be malformed, list nulls, or list fewer records than were asked for. The
    check of one record's metadata, text and digest is a parameter. */
module VectorVerify {
  import opened Domain

  const BATCH := 100
  const MAX_ATTEMPTS := 4

  /** What a fetch returns about one point. */
  datatype Record = Record(metadata: map<string, string>, data: string)

  datatype Item = Null | Point(id: string, record: Record)

  datatype Response = SendFailed | BadShape | Items(items: seq<Item>)

  datatype RecordFault = MetadataMismatch | DataMismatch | IntegrityMismatch

  datatype Reason = VerifiedAll | MissingPoints | PartialVisibility | ResponseShape | OrderingMismatch | RecordMismatch(fault: RecordFault)

  datatype Outcome = Outcome(reason: Reason, expected: nat, observed: nat, nulls: nat, attempt: nat, proof: Option<Verification>) {
    /** What the outcome constructor accepts. */
    predicate Valid() {
      && expected >= 1 && observed <= expected && observed + nulls <= expected
      && 1 <= attempt <= MAX_ATTEMPTS
      && (reason == VerifiedAll ==> proof.Some? && observed == expected && nulls == 0 && proof.value.pointCount == expected)
      && (reason != VerifiedAll ==> proof.None?)
      && (reason == MissingPoints ==> observed == 0)
      && (reason == PartialVisibility ==> 0 < observed < expected)
    }
  }

  /** A record's own check, given the manifest, at its ordinal. */
  type RecordCheck = (string, Record, nat) -> Option<RecordFault>

  // ---------------------------------------------------------------- one batch

  function Place(batch: seq<string>, id: string): (p: nat)
    requires id in batch
    ensures p < |batch| && batch[p] == id
  {
    if batch[0] == id then 0 else 1 + Place(batch[1..], id)
  }

  lemma PlaceUnique(batch: seq<string>, i: nat)
    requires Distinct(batch) && i < |batch|
    ensures Place(batch, batch[i]) == i
  {
  }

  /** A visible record names a point of the batch, in its own slot when the response is positional,
      and passes its check. */
  ghost predicate ItemOk(batch: seq<string>, start: nat, item: Item, slot: nat, positional: bool, check: RecordCheck) {
    item.Point? ==>
      && item.id in batch
      && (positional ==> slot < |batch| && item.id == batch[slot])
      && check(item.id, item.record, start + Place(batch, item.id)).None?
  }

  ghost predicate Before(batch: seq<string>, a: Item, b: Item) {
    a.Point? && b.Point? && a.id in batch && b.id in batch ==> Place(batch, a.id) < Place(batch, b.id)
  }

  ghost predicate OrderlyTo(batch: seq<string>, start: nat, items: seq<Item>, n: nat, check: RecordCheck)
    requires n <= |items|
  {
    && (forall j | 0 <= j < n :: ItemOk(batch, start, items[j], j, |items| == |batch|, check))
    && (forall i, j | 0 <= i < j < n :: Before(batch, items[i], items[j]))
  }

  /** Every visible record is in order. */
  ghost predicate Orderly(batch: seq<string>, start: nat, items: seq<Item>, check: RecordCheck) {
    OrderlyTo(batch, start, items, |items|, check)
  }

  /** The place of the last visible record among the first `n`. */
  function LastPlace(batch: seq<string>, items: seq<Item>, n: nat): (p: int)
    requires n <= |items|
    ensures -1 <= p
  {
    if n == 0 then -1
    else if items[n - 1].Point? && items[n - 1].id in batch then Place(batch, items[n - 1].id)
    else LastPlace(batch, items, n - 1)
  }

  lemma {:induction false} LastIsLargest(batch: seq<string>, start: nat, items: seq<Item>, n: nat, check: RecordCheck)
    requires n <= |items| && OrderlyTo(batch, start, items, n, check)
    ensures forall j | 0 <= j < n && items[j].Point? :: items[j].id in batch && Place(batch, items[j].id) <= LastPlace(batch, items, n)
    ensures LastPlace(batch, items, n) < 0 ||
              exists j :: 0 <= j < n && items[j].Point? && items[j].id in batch && Place(batch, items[j].id) == LastPlace(batch, items, n)
  {
    hide Place;
    if n > 0 {
      LastIsLargest(batch, start, items, n - 1, check);
      assert ItemOk(batch, start, items[n - 1], n - 1, |items| == |batch|, check);
      forall j | 0 <= j < n - 1 ensures Before(batch, items[j], items[n - 1]) {
      }
    }
  }

  /** One more item: in order exactly when it passes and comes after the last visible one. */
  lemma OrderlyNext(batch: seq<string>, start: nat, items: seq<Item>, n: nat, check: RecordCheck)
    requires n < |items| && OrderlyTo(batch, start, items, n, check)
    ensures OrderlyTo(batch, start, items, n + 1, check) <==>
              && ItemOk(batch, start, items[n], n, |items| == |batch|, check)
              && (items[n].Point? ==> LastPlace(batch, items, n) < Place(batch, items[n].id))
  {
    LastIsLargest(batch, start, items, n, check);
    hide Place, LastPlace;
    if OrderlyTo(batch, start, items, n + 1, check) && items[n].Point? {
      assert ItemOk(batch, start, items[n], n, |items| == |batch|, check);
      if LastPlace(batch, items, n) >= 0 {
        var j :| 0 <= j < n && items[j].Point? && items[j].id in batch && Place(batch, items[j].id) == LastPlace(batch, items, n);
        assert Before(batch, items[j], items[n]);
      }
    }
    if ItemOk(batch, start, items[n], n, |items| == |batch|, check)
       && (items[n].Point? ==> LastPlace(batch, items, n) < Place(batch, items[n].id)) {
      forall i | 0 <= i < n ensures Before(batch, items[i], items[n]) {
      }
    }
  }

  function Visible(items: seq<Item>): (ids: seq<string>)
    ensures |ids| <= |items|
  {
    if items == [] then []
    else
      var last := items[|items| - 1];
      Visible(items[..|items| - 1]) + if last.Point? then [last.id] else []
  }

  lemma VisibleNext(items: seq<Item>, i: nat)
    requires i < |items|
    ensures Visible(items[..i + 1]) == Visible(items[..i]) + if items[i].Point? then [items[i].id] else []
  {
    assert items[..i + 1][..i] == items[..i];
  }

  /** The response lists exactly the batch, in order, each record passing its check. */
  ghost predicate BatchComplete(batch: seq<string>, start: nat, items: seq<Item>, check: RecordCheck) {
    && |items| == |batch|
    && forall j | 0 <= j < |batch| :: items[j].Point? && items[j].id == batch[j] && check(batch[j], items[j].record, start + j).None?
  }

  lemma {:induction false} AllVisible(items: seq<Item>)
    ensures |Visible(items)| == |items| <==> forall j | 0 <= j < |items| :: items[j].Point?
  {
    if items != [] {
      AllVisible(items[..|items| - 1]);
    }
  }

  lemma {:induction false} VisibleIds(items: seq<Item>, n: nat)
    requires n <= |items| && forall j | 0 <= j < n :: items[j].Point?
    ensures |Visible(items[..n])| == n && forall j | 0 <= j < n :: Visible(items[..n])[j] == items[j].id
  {
    if n > 0 {
      VisibleIds(items, n - 1);
      VisibleNext(items, n - 1);
    }
  }

  /** An orderly response of at most the batch's size shows every point exactly when it is complete. */
  lemma CompleteIffAllVisible(batch: seq<string>, start: nat, items: seq<Item>, check: RecordCheck)
    requires Distinct(batch) && |items| <= |batch|
    ensures BatchComplete(batch, start, items, check) <==> Orderly(batch, start, items, check) && |Visible(items)| == |batch|
    ensures BatchComplete(batch, start, items, check) ==> Visible(items) == batch
  {
    AllVisible(items);
    forall i | 0 <= i < |batch| ensures Place(batch, batch[i]) == i {
      PlaceUnique(batch, i);
    }
    if BatchComplete(batch, start, items, check) {
      CompleteIsOrderly(batch, start, items, check);
    } else if Orderly(batch, start, items, check) && |Visible(items)| == |batch| {
      OrderlyIsComplete(batch, start, items, check);
    }
  }

  lemma CompleteIsOrderly(batch: seq<string>, start: nat, items: seq<Item>, check: RecordCheck)
    requires BatchComplete(batch, start, items, check)
    requires forall i | 0 <= i < |batch| :: Place(batch, batch[i]) == i
    ensures Orderly(batch, start, items, check) && Visible(items) == batch
  {
    hide Place, Visible;
    VisibleIds(items, |items|);
    assert items[..|items|] == items;
    forall j | 0 <= j < |items| ensures ItemOk(batch, start, items[j], j, true, check) {
      assert items[j].id == batch[j];
    }
    forall i, j | 0 <= i < j < |items| ensures Before(batch, items[i], items[j]) {
      assert items[i].id == batch[i] && items[j].id == batch[j];
    }
  }

  lemma OrderlyIsComplete(batch: seq<string>, start: nat, items: seq<Item>, check: RecordCheck)
    requires Distinct(batch) && Orderly(batch, start, items, check) && |items| == |batch|
    requires forall j | 0 <= j < |items| :: items[j].Point?
    ensures BatchComplete(batch, start, items, check)
  {
    hide Place, Distinct, OrderlyTo;
    forall j | 0 <= j < |batch|
      ensures items[j].Point? && items[j].id == batch[j] && check(batch[j], items[j].record, start + j).None?
    {
      OrderlyAt(batch, start, items, j, check);
      PlaceUnique(batch, j);
    }
  }

  lemma OrderlyAt(batch: seq<string>, start: nat, items: seq<Item>, j: nat, check: RecordCheck)
    requires Orderly(batch, start, items, check) && j < |items|
    ensures ItemOk(batch, start, items[j], j, |items| == |batch|, check)
  {
  }

  /** The inner loop: reads one decoded response. */
  method ReadBatch(batch: seq<string>, start: nat, items: seq<Item>, check: RecordCheck)
    returns (fault: Option<Reason>, ids: seq<string>)
    requires Distinct(batch) && |items| <= |batch|
    ensures fault.None? <==> Orderly(batch, start, items, check)
    ensures fault.None? ==> ids == Visible(items)
    ensures fault.Some? ==> fault.value == OrderingMismatch || fault.value.RecordMismatch?
  {
    hide Place, LastPlace, Visible, Distinct, Orderly;
    ids := [];
    var positional := |items| == |batch|;
    var last, offset := -1, 0;
    LoopStarts(batch, start, items, check);
    while offset < |items|
      invariant 0 <= offset <= |items| && ids == Visible(items[..offset])
      invariant OrderlyTo(batch, start, items, offset, check) && last == LastPlace(batch, items, offset)
    {
      VisibleNext(items, offset);
      OrderlyNext(batch, start, items, offset, check);
      OrderlyFails(batch, start, items, offset + 1, check);
      LastPlaceNext(batch, items, offset);
      if items[offset].Point? {
        var id := items[offset].id;
        if positional {
          PlaceUnique(batch, offset);
        }
        var expected := if positional then Some(offset) else if id in batch then Some(Place(batch, id)) else None;
        if expected.None? || expected.value <= last || id != batch[expected.value] {
          return Some(OrderingMismatch), ids;
        }
        last := expected.value;
        var bad := check(id, items[offset].record, start + last);
        if bad.Some? {
          return Some(RecordMismatch(bad.value)), ids;
        }
        ids := ids + [id];
      }
      offset := offset + 1;
    }
    assert items[..offset] == items;
    LoopEnds(batch, start, items, check);
    return None, ids;
  }

  lemma LoopStarts(batch: seq<string>, start: nat, items: seq<Item>, check: RecordCheck)
    ensures OrderlyTo(batch, start, items, 0, check) && LastPlace(batch, items, 0) == -1 && Visible(items[..0]) == []
  {
  }

  lemma LoopEnds(batch: seq<string>, start: nat, items: seq<Item>, check: RecordCheck)
    ensures Orderly(batch, start, items, check) <==> OrderlyTo(batch, start, items, |items|, check)
  {
  }

  lemma OrderlyFails(batch: seq<string>, start: nat, items: seq<Item>, n: nat, check: RecordCheck)
    requires n <= |items|
    ensures Orderly(batch, start, items, check) ==> OrderlyTo(batch, start, items, n, check)
  {
  }

  lemma LastPlaceNext(batch: seq<string>, items: seq<Item>, n: nat)
    requires n < |items|
    ensures LastPlace(batch, items, n + 1)
              == if items[n].Point? && items[n].id in batch then Place(batch, items[n].id) else LastPlace(batch, items, n)
  {
  }

  // ---------------------------------------------------------------- one attempt over all batches

  function BatchCount(n: nat): nat {
    (n + BATCH - 1) / BATCH
  }

  function Start(k: nat, n: nat): (i: nat)
    ensures i <= n
  {
    if k * BATCH < n then k * BATCH else n
  }

  function Batch(m: Manifest, k: nat): seq<string> {
    m.chunkIds[Start(k, |m.chunkIds|)..Start(k + 1, |m.chunkIds|)]
  }

  lemma BatchDistinct(m: Manifest, k: nat)
    requires m.Valid()
    ensures Distinct(Batch(m, k))
  {
  }

  lemma BatchSize(m: Manifest, k: nat)
    ensures Start(k, |m.chunkIds|) + |Batch(m, k)| == Start(k + 1, |m.chunkIds|)
  {
  }

  /** The batches are the manifest's points in order, a hundred at a time: every one but the last is full, the
      last is not empty, and there are none behind it. */
  lemma BatchesCover(m: Manifest, k: nat, i: nat)
    requires m.Valid()
    ensures k + 1 < BatchCount(|m.chunkIds|) ==> |Batch(m, k)| == 100
    ensures k + 1 == BatchCount(|m.chunkIds|) ==> 0 < |Batch(m, k)| <= 100 && k * 100 + |Batch(m, k)| == |m.chunkIds|
    ensures k >= BatchCount(|m.chunkIds|) ==> Batch(m, k) == []
    ensures i < |Batch(m, k)| ==> k * 100 + i < |m.chunkIds| && Batch(m, k)[i] == m.chunkIds[k * 100 + i]
  {
    var n := |m.chunkIds|;
    assert (n + BATCH - 1) / BATCH * BATCH <= n + BATCH - 1 < ((n + BATCH - 1) / BATCH + 1) * BATCH;
  }

  /** Response `k` arrived, is well formed, and shows records of its batch in order. */
  ghost predicate Readable(m: Manifest, k: nat, response: Response, check: RecordCheck) {
    && response.Items? && |response.items| <= |Batch(m, k)|
    && Orderly(Batch(m, k), Start(k, |m.chunkIds|), response.items, check)
  }

  ghost predicate AllReadable(m: Manifest, responses: seq<Response>, n: nat, check: RecordCheck)
    requires n <= |responses|
  {
    forall k | 0 <= k < n :: Readable(m, k, responses[k], check)
  }

  /** The responses list every point of the manifest, in order, each record passing its check at its
      ordinal: stated over the concatenation of all responses. */
  ghost predicate ListsExactly(m: Manifest, responses: seq<Response>, check: RecordCheck) {
    Sized(m, responses, |responses|) && Intact(m, Listed(responses), check) && |Listed(responses)| == |m.chunkIds|
  }

  function Listed(responses: seq<Response>): seq<Item> {
    if responses == [] then []
    else
      var last := responses[|responses| - 1];
      Listed(responses[..|responses| - 1]) + if last.Items? then last.items else []
  }

  ghost predicate CompleteTo(m: Manifest, responses: seq<Response>, n: nat, check: RecordCheck)
    requires n <= |responses|
  {
    forall k | 0 <= k < n :: responses[k].Items? && BatchComplete(Batch(m, k), Start(k, |m.chunkIds|), responses[k].items, check)
  }

  /** The points of the first `k` batches seen so far: all of them exactly when those are complete. */
  ghost predicate Seen(m: Manifest, responses: seq<Response>, k: nat, observed: nat, ids: seq<string>, check: RecordCheck)
    requires k <= |responses|
  {
    && observed == |ids| <= Start(k, |m.chunkIds|)
    && (observed == Start(k, |m.chunkIds|) <==> CompleteTo(m, responses, k, check))
    && (CompleteTo(m, responses, k, check) ==> ids == m.chunkIds[..Start(k, |m.chunkIds|)])
  }

  lemma SeenNext(m: Manifest, responses: seq<Response>, k: nat, ids: seq<string>, check: RecordCheck)
    requires m.Valid() && k < |responses| && Seen(m, responses, k, |ids|, ids, check)
    requires Readable(m, k, responses[k], check)
    ensures var more := ids + Visible(responses[k].items); Seen(m, responses, k + 1, |more|, more, check)
  {
    hide Orderly, BatchComplete, Visible, Distinct;
    BatchDistinct(m, k);
    CompleteIffAllVisible(Batch(m, k), Start(k, |m.chunkIds|), responses[k].items, check);
    assert CompleteTo(m, responses, k + 1, check) <==>
             CompleteTo(m, responses, k, check)
             && BatchComplete(Batch(m, k), Start(k, |m.chunkIds|), responses[k].items, check);
  }

  ghost predicate Sized(m: Manifest, responses: seq<Response>, n: nat)
    requires n <= |responses|
  {
    forall k | 0 <= k < n :: responses[k].Items? && |responses[k].items| <= |Batch(m, k)|
  }

  /** The first items of the concatenation are the manifest's points, in order and intact. */
  ghost predicate Intact(m: Manifest, all: seq<Item>, check: RecordCheck) {
    |all| <= |m.chunkIds|
    && forall i | 0 <= i < |all| :: all[i].Point? && all[i].id == m.chunkIds[i] && check(all[i].id, all[i].record, i).None?
  }

  lemma ListedNext(responses: seq<Response>, k: nat)
    requires k < |responses|
    ensures Listed(responses[..k + 1]) == Listed(responses[..k]) + if responses[k].Items? then responses[k].items else []
  {
    assert responses[..k + 1][..k] == responses[..k];
  }

  /** One more batch: the concatenation stays intact and full exactly when the batch is complete. */
  lemma IntactNext(m: Manifest, k: nat, before: seq<Item>, items: seq<Item>, check: RecordCheck)
    requires |before| <= Start(k, |m.chunkIds|) && |items| <= |Batch(m, k)|
    ensures var start := Start(k, |m.chunkIds|);
            (Intact(m, before + items, check) && |before + items| == Start(k + 1, |m.chunkIds|))
            <==> (Intact(m, before, check) && |before| == start && BatchComplete(Batch(m, k), start, items, check))
  {
    var start, all := Start(k, |m.chunkIds|), before + items;
    if Intact(m, all, check) && |all| == Start(k + 1, |m.chunkIds|) {
      forall i | 0 <= i < |before|
        ensures before[i].Point? && before[i].id == m.chunkIds[i] && check(before[i].id, before[i].record, i).None?
      {
        assert before[i] == all[i];
      }
      forall j | 0 <= j < |Batch(m, k)|
        ensures items[j].Point? && items[j].id == Batch(m, k)[j] && check(Batch(m, k)[j], items[j].record, start + j).None?
      {
        assert items[j] == all[start + j];
      }
    }
    if Intact(m, before, check) && |before| == start && BatchComplete(Batch(m, k), start, items, check) {
      forall i | 0 <= i < |all| ensures all[i].Point? && all[i].id == m.chunkIds[i] && check(all[i].id, all[i].record, i).None? {
        if i >= start {
          assert all[i] == items[i - start] && Batch(m, k)[i - start] == m.chunkIds[i];
        }
      }
    }
  }

  /** Listing exactly is the same as every batch being complete. */
  lemma {:induction false} ListedPrefix(m: Manifest, responses: seq<Response>, n: nat, check: RecordCheck)
    requires n <= |responses| && Sized(m, responses, n)
    ensures var all := Listed(responses[..n]);
            && |all| <= Start(n, |m.chunkIds|)
            && (CompleteTo(m, responses, n, check) <==> Intact(m, all, check) && |all| == Start(n, |m.chunkIds|))
  {
    hide Intact, BatchComplete;
    if n > 0 {
      ListedPrefix(m, responses, n - 1, check);
      ListedNext(responses, n - 1);
      IntactNext(m, n - 1, Listed(responses[..n - 1]), responses[n - 1].items, check);
      assert CompleteTo(m, responses, n, check) <==>
               CompleteTo(m, responses, n - 1, check)
               && BatchComplete(Batch(m, n - 1), Start(n - 1, |m.chunkIds|), responses[n - 1].items, check);
    } else {
      NothingIntact(m, check);
    }
  }

  lemma NothingIntact(m: Manifest, check: RecordCheck)
    ensures Intact(m, [], check)
  {
  }

  lemma CompleteIsListed(m: Manifest, responses: seq<Response>, check: RecordCheck)
    requires |responses| == BatchCount(|m.chunkIds|)
    ensures CompleteTo(m, responses, |responses|, check) <==> ListsExactly(m, responses, check)
  {
    if Sized(m, responses, |responses|) {
      ListedPrefix(m, responses, |responses|, check);
      assert responses[..|responses|] == responses;
    } else {
      assert exists k :: 0 <= k < |responses| && !(responses[k].Items? && |responses[k].items| <= |Batch(m, k)|);
    }
  }

  lemma {:induction false} VisibleAppend(a: seq<Item>, b: seq<Item>)
    ensures Visible(a + b) == Visible(a) + Visible(b)
    decreases |b|
  {
    if b == [] {
      assert a + b == a;
    } else {
      VisibleAppend(a, b[..|b| - 1]);
      assert (a + b)[..|a + b| - 1] == a + b[..|b| - 1];
    }
  }

  /** The reasons reached after reading every batch. */
  predicate Counted(reason: Reason) {
    reason.VerifiedAll? || reason.MissingPoints? || reason.PartialVisibility?
  }

  /** A command failed, and every response before it was readable: the attempt got that far. */
  ghost predicate SendFails(m: Manifest, responses: seq<Response>, check: RecordCheck) {
    exists k :: 0 <= k < |responses| && responses[k].SendFailed? && AllReadable(m, responses, k, check)
  }

  lemma FailsAt(m: Manifest, responses: seq<Response>, k: nat, check: RecordCheck)
    requires k < |responses| && responses[k].SendFailed? && AllReadable(m, responses, k, check)
    ensures SendFails(m, responses, check)
  {
  }

  lemma StopsBefore(m: Manifest, responses: seq<Response>, k: nat, check: RecordCheck)
    requires k <= |responses| && AllReadable(m, responses, k, check)
    requires k < |responses| ==> !Readable(m, k, responses[k], check) && !responses[k].SendFailed?
    ensures !SendFails(m, responses, check)
  {
  }

  /** One attempt. None stands for the exception of a failed command. */
  method VerifyOnce(m: Manifest, responses: seq<Response>, check: RecordCheck, attempt: nat) returns (outcome: Option<Outcome>)
    requires m.Valid() && |responses| == BatchCount(|m.chunkIds|) && 1 <= attempt <= MAX_ATTEMPTS
    ensures outcome.Some? ==> outcome.value.Valid() && outcome.value.attempt == attempt && outcome.value.expected == |m.chunkIds|
    ensures outcome.Some? && outcome.value.reason == VerifiedAll <==> ListsExactly(m, responses, check)
    ensures outcome.Some? && outcome.value.reason == VerifiedAll ==> outcome.value.proof.value.Proves(m)
    ensures (outcome.Some? && Counted(outcome.value.reason)) <==> AllReadable(m, responses, |responses|, check)
    ensures outcome.None? <==> SendFails(m, responses, check)
    ensures outcome.Some? && Counted(outcome.value.reason) ==>
              && outcome.value.observed == |Visible(Listed(responses))|
              && outcome.value.observed + outcome.value.nulls == |Listed(responses)|
  {
    hide Orderly, BatchComplete, Visible, Listed, Distinct, CompleteTo, Batch, ListsExactly, SendFails;
    CompleteIsListed(m, responses, check);
    var expected := |m.chunkIds|;
    var observed: nat, nulls: nat, ids, k := 0, 0, [], 0;
    NothingSeen(m, responses, check);
    while k < |responses|
      invariant 0 <= k <= |responses| && Seen(m, responses, k, observed, ids, check)
      invariant observed + nulls == |Listed(responses[..k])| <= Start(k, expected)
      invariant ids == Visible(Listed(responses[..k]))
      invariant AllReadable(m, responses, k, check)
    {
      BatchDistinct(m, k);
      BatchSize(m, k);
      NotReadable(m, responses, k, check);
      var batch := Batch(m, k);
      if responses[k].SendFailed? {
        FailsAt(m, responses, k, check);
        return None;
      }
      if responses[k].BadShape? || |responses[k].items| > |batch| {
        StopsBefore(m, responses, k, check);
        return Some(Outcome(ResponseShape, expected, observed, nulls, attempt, None));
      }
      var items := responses[k].items;
      var visible := |Visible(items)|;
      var fault, more := ReadBatch(batch, Start(k, expected), items, check);
      if fault.Some? {
        StopsBefore(m, responses, k, check);
        return Some(Outcome(fault.value, expected, observed + visible, nulls + (|items| - visible), attempt, None));
      }
      SeenNext(m, responses, k, ids, check);
      ListedNext(responses, k);
      VisibleAppend(Listed(responses[..k]), items);
      observed, nulls, ids := observed + visible, nulls + (|items| - visible), ids + more;
      k := k + 1;
    }
    assert Start(k, expected) == expected && responses[..k] == responses;
    StopsBefore(m, responses, k, check);
    if observed != expected {
      return Some(Outcome(if observed == 0 then MissingPoints else PartialVisibility, expected, observed, nulls, attempt, None));
    }
    // A last comparison of the IDs follows here; it cannot fail.
    assert ids == m.chunkIds;
    return Some(Outcome(VerifiedAll, expected, expected, 0, attempt, Some(FromPointIds(m.gen, ids))));
  }

  lemma NothingSeen(m: Manifest, responses: seq<Response>, check: RecordCheck)
    ensures Seen(m, responses, 0, 0, [], check) && AllReadable(m, responses, 0, check) && Start(0, |m.chunkIds|) == 0
    ensures Listed(responses[..0]) == [] && Visible(Listed(responses[..0])) == []
  {
  }

  /** An unreadable response leaves the attempt neither readable nor complete. */
  lemma NotReadable(m: Manifest, responses: seq<Response>, k: nat, check: RecordCheck)
    requires m.Valid() && k < |responses|
    ensures AllReadable(m, responses, |responses|, check) || CompleteTo(m, responses, |responses|, check) ==>
              Readable(m, k, responses[k], check)
    ensures AllReadable(m, responses, k, check) && Readable(m, k, responses[k], check) ==> AllReadable(m, responses, k + 1, check)
  {
    BatchDistinct(m, k);
    if responses[k].Items? && |responses[k].items| <= |Batch(m, k)| {
      CompleteIffAllVisible(Batch(m, k), Start(k, |m.chunkIds|), responses[k].items, check);
    }
  }

  // ---------------------------------------------------------------- polling

  const DELAYS: seq<real> := [0.05, 0.1, 0.2]

  datatype Poll = Raised | TimedOut | Settled(outcome: Outcome)

  /** An attempt worth another one: everything was readable and points were missing. */
  ghost predicate Lacking(m: Manifest, responses: seq<Response>, check: RecordCheck) {
    AllReadable(m, responses, |responses|, check) && !ListsExactly(m, responses, check)
  }

  predicate InTime(left: seq<(real, real)>, i: nat)
    requires i < |left| == |DELAYS|
  {
    left[i].0 > DELAYS[i] && left[i].1 > 0.0
  }

  /** Polling gets to attempt `j`, counted from zero. */
  ghost predicate Attempted(m: Manifest, attempts: seq<seq<Response>>, left: seq<(real, real)>, j: nat, check: RecordCheck)
    requires j < |attempts| == |left| + 1 && |left| == |DELAYS|
  {
    forall i | 0 <= i < j :: Lacking(m, attempts[i], check) && InTime(left, i)
  }

  ghost predicate RaisesAt(m: Manifest, attempts: seq<seq<Response>>, left: seq<(real, real)>, j: nat, check: RecordCheck)
    requires |attempts| == |left| + 1 && |left| == |DELAYS|
  {
    j < |attempts| && Attempted(m, attempts, left, j, check) && SendFails(m, attempts[j], check)
  }

  ghost predicate ExpiresAt(m: Manifest, attempts: seq<seq<Response>>, left: seq<(real, real)>, j: nat, check: RecordCheck)
    requires |attempts| == |left| + 1 && |left| == |DELAYS|
  {
    j < |left| && Attempted(m, attempts, left, j, check) && Lacking(m, attempts[j], check) && !InTime(left, j)
  }

  /** Polling that ends at attempt `j` ends nowhere else. */
  lemma EndsOnce(m: Manifest, attempts: seq<seq<Response>>, left: seq<(real, real)>, j: nat, check: RecordCheck)
    requires j < |attempts| == |left| + 1 && |left| == |DELAYS| && Attempted(m, attempts, left, j, check)
    requires j == |left| || !Lacking(m, attempts[j], check) || !InTime(left, j)
    ensures forall k :: RaisesAt(m, attempts, left, k, check) ==> k == j
    ensures forall k :: ExpiresAt(m, attempts, left, k, check) ==> k == j
  {
    hide ListsExactly, InTime;
    forall k: nat | RaisesAt(m, attempts, left, k, check) ensures k == j {
      LacksNot(m, attempts[k], check);
    }
  }

  lemma LacksNot(m: Manifest, responses: seq<Response>, check: RecordCheck)
    ensures !(SendFails(m, responses, check) && Lacking(m, responses, check))
  {
    if AllReadable(m, responses, |responses|, check) {
      StopsBefore(m, responses, |responses|, check);
    }
  }

  /** One polled verification: the responses of each attempt, and the time left before and after each
      sleep as the deadline reports it. */
  method Verify(m: Manifest, attempts: seq<seq<Response>>, left: seq<(real, real)>, check: RecordCheck) returns (poll: Poll)
    requires m.Valid() && |attempts| == MAX_ATTEMPTS && |left| == |DELAYS|
    requires forall i | 0 <= i < |attempts| :: |attempts[i]| == BatchCount(|m.chunkIds|)
    ensures poll.Raised? <==> exists j :: RaisesAt(m, attempts, left, j, check)
    ensures poll.TimedOut? <==> exists j :: ExpiresAt(m, attempts, left, j, check)
    ensures poll.Settled? ==>
              && poll.outcome.Valid() && poll.outcome.attempt <= MAX_ATTEMPTS
              && Attempted(m, attempts, left, poll.outcome.attempt - 1, check)
              && (poll.outcome.reason == VerifiedAll <==> ListsExactly(m, attempts[poll.outcome.attempt - 1], check))
              && (poll.outcome.reason == VerifiedAll ==> poll.outcome.proof.value.Proves(m))
              && (poll.outcome.reason in {MissingPoints, PartialVisibility} ==> poll.outcome.attempt == MAX_ATTEMPTS)
  {
    hide ListsExactly, AllReadable, BatchCount, SendFails;
    var first := VerifyOnce(m, attempts[0], check, 1);
    LacksNot(m, attempts[0], check);
    if first.None? {
      EndsOnce(m, attempts, left, 0, check);
      assert RaisesAt(m, attempts, left, 0, check);
      return Raised;
    }
    var result, next := first.value, 1;
    while next < |attempts|
      invariant 1 <= next <= |attempts| && result.Valid() && result.attempt == next
      invariant result.reason == VerifiedAll <==> ListsExactly(m, attempts[next - 1], check)
      invariant result.reason == VerifiedAll ==> result.proof.value.Proves(m)
      invariant Counted(result.reason) <==> AllReadable(m, attempts[next - 1], |attempts[next - 1]|, check)
      invariant !SendFails(m, attempts[next - 1], check)
      invariant Attempted(m, attempts, left, next - 1, check)
    {
      if !(result.reason == MissingPoints || result.reason == PartialVisibility) {
        EndsOnce(m, attempts, left, next - 1, check);
        return Settled(result);
      }
      if left[next - 1].0 <= DELAYS[next - 1] {
        EndsOnce(m, attempts, left, next - 1, check);
        assert ExpiresAt(m, attempts, left, next - 1, check);
        return TimedOut;
      }
      if left[next - 1].1 <= 0.0 {
        EndsOnce(m, attempts, left, next - 1, check);
        assert ExpiresAt(m, attempts, left, next - 1, check);
        return TimedOut;
      }
      var again := VerifyOnce(m, attempts[next], check, next + 1);
      LacksNot(m, attempts[next], check);
      if again.None? {
        EndsOnce(m, attempts, left, next, check);
        assert RaisesAt(m, attempts, left, next, check);
        return Raised;
      }
      result, next := again.value, next + 1;
    }
    EndsOnce(m, attempts, left, next - 1, check);
    return Settled(result);
  }

  // ---------------------------------------------------------------- inspection

  datatype InspectionState = Absent | Exact | Partial | Inconsistent

  datatype Inspection = Inspection(state: InspectionState, expected: nat, observed: nat) {
    /** What the inspection constructor accepts. */
    predicate Valid() {
      && expected >= 1
      && (state == Absent ==> observed == 0)
      && (state == Exact ==> observed == expected)
      && (state == Partial ==> 0 < observed < expected)
    }
  }

  type MetadataCheck = (string, Record) -> bool

  /** The points of the batch that were seen, in batch order. */
  function Subset(batch: seq<string>, seen: seq<string>): (r: seq<string>)
    ensures |r| <= |batch| && forall id :: id in r <==> id in batch && id in seen
    ensures |r| == |batch| ==> r == batch
    ensures Distinct(batch) ==> Distinct(r)
  {
    if batch == [] then []
    else
      var rest := Subset(batch[1..], seen);
      assert Distinct(batch) ==> Distinct(batch[1..]);
      (if batch[0] in seen then [batch[0]] else []) + rest
  }

  predicate AllMatch(items: seq<Item>, matches: MetadataCheck) {
    forall j | 0 <= j < |items| && items[j].Point? :: matches(items[j].id, items[j].record)
  }

  ghost predicate Consistent(m: Manifest, k: nat, response: Response, matches: MetadataCheck) {
    && response.Items? && |response.items| <= |Batch(m, k)|
    && Visible(response.items) == Subset(Batch(m, k), Visible(response.items))
    && forall j | 0 <= j < |response.items| && response.items[j].Point? :: matches(response.items[j].id, response.items[j].record)
  }

  ghost predicate AllConsistent(m: Manifest, responses: seq<Response>, n: nat, matches: MetadataCheck)
    requires n <= |responses|
  {
    forall k | 0 <= k < n :: Consistent(m, k, responses[k], matches)
  }

  /** What consistent responses have shown of the first `n` points. */
  ghost predicate Shown(m: Manifest, n: nat, ids: seq<string>)
    requires n <= |m.chunkIds|
  {
    && |ids| <= n && (|ids| == n ==> ids == m.chunkIds[..n])
    && Distinct(ids) && forall id | id in ids :: id in m.chunkIds[..n]
  }

  lemma DistinctJoin(a: seq<string>, b: seq<string>)
    requires Distinct(a) && Distinct(b) && forall id | id in a :: id !in b
    ensures Distinct(a + b)
  {
    var all := a + b;
    forall i, j | 0 <= i < j < |all| ensures all[i] != all[j] {
      if i < |a| <= j {
        assert a[i] in a && b[j - |a|] in b;
      }
    }
  }

  /** A batch shares no point with the batches before it. */
  lemma BatchIsNew(m: Manifest, k: nat, id: string)
    requires m.Valid() && id in Batch(m, k)
    ensures id !in m.chunkIds[..Start(k, |m.chunkIds|)] && id in m.chunkIds[..Start(k + 1, |m.chunkIds|)]
  {
    var s := Start(k, |m.chunkIds|);
    var j :| 0 <= j < |Batch(m, k)| && Batch(m, k)[j] == id;
    assert m.chunkIds[s + j] == id;
  }

  lemma ShownNext(m: Manifest, k: nat, ids: seq<string>, more: seq<string>)
    requires m.Valid() && Shown(m, Start(k, |m.chunkIds|), ids) && more == Subset(Batch(m, k), more)
    ensures Shown(m, Start(k + 1, |m.chunkIds|), ids + more)
  {
    hide Distinct, Subset;
    var s, t := Start(k, |m.chunkIds|), Start(k + 1, |m.chunkIds|);
    BatchDistinct(m, k);
    assert m.chunkIds[..t] == m.chunkIds[..s] + Batch(m, k);
    forall id | id in more ensures id !in ids && id in m.chunkIds[..t] {
      BatchIsNew(m, k, id);
    }
    DistinctJoin(ids, more);
  }

  /** None stands for the exception of a failed command. */
  method Inspect(m: Manifest, responses: seq<Response>, matches: MetadataCheck) returns (r: Option<Inspection>)
    requires m.Valid() && |responses| == BatchCount(|m.chunkIds|)
    ensures r.None? <==> exists k :: 0 <= k < |responses| && responses[k].SendFailed?
    ensures r.Some? ==> r.value.Valid() && r.value.expected == |m.chunkIds|
    ensures r.Some? ==> (r.value.state == Inconsistent <==> !AllConsistent(m, responses, |responses|, matches))
    ensures r.Some? && r.value.state != Inconsistent ==>
              && r.value.observed == |Visible(Listed(responses))|
              && (r.value.state == Absent <==> Visible(Listed(responses)) == [])
              && (r.value.state == Exact <==> Visible(Listed(responses)) == m.chunkIds)
  {
    hide Visible, Listed, Subset, Distinct, Batch;
    var expected := |m.chunkIds|;
    var observed: seq<string>, inconsistent, k := [], false, 0;
    NothingShown(m, responses);
    while k < |responses|
      invariant 0 <= k <= |responses| && forall j | 0 <= j < k :: !responses[j].SendFailed?
      invariant inconsistent <==> !AllConsistent(m, responses, k, matches)
      invariant !inconsistent ==> Shown(m, Start(k, expected), observed) && observed == Visible(Listed(responses[..k]))
    {
      if responses[k].SendFailed? {
        return None;
      }
      var batch := Batch(m, k);
      if responses[k].BadShape? || |responses[k].items| > |batch| {
        inconsistent := true;
      } else {
        var items := responses[k].items;
        var seen := Visible(items);
        SubsetDistinct(m, k, seen);
        if !Distinct(seen) || seen != Subset(batch, seen) || !AllMatch(items, matches) {
          inconsistent := true;
        } else {
          ListedNext(responses, k);
          VisibleAppend(Listed(responses[..k]), items);
          if !inconsistent {
            ShownNext(m, k, observed, seen);
          }
        }
        observed := observed + seen;
      }
      k := k + 1;
    }
    assert Start(k, expected) == expected && responses[..k] == responses && m.chunkIds[..expected] == m.chunkIds;
    var state := if inconsistent || !Distinct(observed) then Inconsistent
                 else if |observed| == 0 then Absent
                 else if observed == m.chunkIds then Exact
                 else Partial;
    return Some(Inspection(state, expected, |observed|));
  }

  lemma NothingShown(m: Manifest, responses: seq<Response>)
    ensures Shown(m, Start(0, |m.chunkIds|), []) && Visible(Listed(responses[..0])) == []
  {
  }

  lemma SubsetDistinct(m: Manifest, k: nat, seen: seq<string>)
    requires m.Valid()
    ensures seen == Subset(Batch(m, k), seen) ==> Distinct(seen)
  {
    BatchDistinct(m, k);
  }
}
