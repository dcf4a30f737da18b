/** list_active_generations: three separate reads while any number of ingesters run. */
module Listing {
  import opened Domain
  import opened RedisKeys
  import opened Lifecycle
  import opened Fencing
  import opened FencedRuns

  datatype Answer<+T> = Listed(value: T) | Unavailable

  /** `order` lists the members of the index once, in the order of their digests. */
  ghost predicate Indexed(k: Keys, scope: Scope, order: seq<Accession>) {
    Distinct(order) && forall a :: a in order <==> a in Members(k.index, scope)
  }

  /** The middle read: one MGET of the active pointers; a missing pointer fails closed. */
  function ReadPointers(k: Keys, order: seq<Accession>): (r: Answer<seq<GenerationKey>>)
    ensures r.Listed? <==> forall a | a in order :: a in k.active
    ensures r.Listed? ==> |r.value| == |order| && forall i | 0 <= i < |order| ::
              order[i] in k.active && r.value[i] == GenerationKey(order[i], k.active[order[i]])
  {
    if order == [] then Listed([])
    else if order[0] !in k.active then Unavailable
    else
      var rest := ReadPointers(k, order[1..]);
      if rest.Unavailable? then Unavailable
      else Listed([GenerationKey(order[0], k.active[order[0]])] + rest.value)
  }

  /** The last read: one MGET of the records; a record that is missing, not PUBLISHED or stored
      for another generation, filing or scope fails closed. */
  function ReadRecords(k: Keys, scope: Scope, pairs: seq<GenerationKey>): (r: Answer<seq<Manifest>>)
    ensures r.Listed? <==> forall key | key in pairs ::
              && PublishedAt(k.gens, key) && KeyOf(k.gens[key].value.manifest) == key
              && k.gens[key].value.manifest.accession.scope == scope
    ensures r.Listed? ==> |r.value| == |pairs| && forall i | 0 <= i < |pairs| ::
              pairs[i] in k.gens && r.value[i] == k.gens[pairs[i]].value.manifest
  {
    if pairs == [] then Listed([])
    else if !RecordListed(k, scope, pairs[0]) then
      assert pairs[0] in pairs;
      Unavailable
    else
      assert forall key | key in pairs :: key == pairs[0] || key in pairs[1..];
      assert forall key | key in pairs[1..] :: key in pairs;
      var rest := ReadRecords(k, scope, pairs[1..]);
      if rest.Unavailable? then Unavailable
      else Listed([k.gens[pairs[0]].value.manifest] + rest.value)
  }

  predicate RecordListed(k: Keys, scope: Scope, key: GenerationKey) {
    && key in k.gens
    && k.gens[key].value.state == Published
    && k.gens[key].value.manifest.accession.scope == scope
    && KeyOf(k.gens[key].value.manifest) == key
  }

  /** The whole call: index read in `first`, pointers read in `middle`, records read in `last`. */
  function ListActive(order: seq<Accession>, middle: Keys, last: Keys, scope: Scope): Answer<seq<Manifest>> {
    if order == [] then Listed([])
    else
      var pairs := ReadPointers(middle, order);
      if pairs.Unavailable? then Unavailable else ReadRecords(last, scope, pairs.value)
  }

  lemma PointersStay(s: World, t: World, scope: Scope, order: seq<Accession>)
    requires KeysOk(s) && KeysOk(t) && Evolves(s, t) && Indexed(s.keys, scope, order)
    ensures ReadPointers(t.keys, order).Listed?
    ensures forall a | a in order :: a.scope == scope
  {
    forall a | a in order ensures a in t.keys.active && a.scope == scope {
      assert a in Members(s.keys.index, scope);
      assert a in s.history;
    }
  }

  lemma RecordsStay(s: World, t: World, scope: Scope, order: seq<Accession>)
    requires KeysOk(s) && Evolves(s, t) && ReadPointers(s.keys, order).Listed?
    requires forall a | a in order :: a.scope == scope
    ensures var pairs := ReadPointers(s.keys, order).value;
            && ReadRecords(t.keys, scope, pairs).Listed?
            && forall i | 0 <= i < |pairs| :: pairs[i] in s.keys.gens && t.keys.Holds(pairs[i], s.keys.gens[pairs[i]].value)
  {
    hide IndexOk, CleanupsOk, CleanupsComplete, CleanupIndexOk, HistoryOk;
    var pairs := ReadPointers(s.keys, order).value;
    forall i | 0 <= i < |pairs|
      ensures pairs[i] in s.keys.gens && t.keys.Holds(pairs[i], s.keys.gens[pairs[i]].value)
      ensures RecordListed(t.keys, scope, pairs[i])
    {
      assert order[i] in order;
      ActivePointerAccepted(s, order[i]);
    }
  }

  /** However the three reads interleave with other workers, no fail-closed branch is reached, and
      the answer is exactly the manifests active together at the middle read, one for each filing
      indexed at the first read. */
  lemma ListActiveIsSnapshot(states: seq<System>, events: seq<Event>, i: nat, j: nat, k: nat,
                             scope: Scope, order: seq<Accession>)
    requires Run(None, states, events) && i <= j <= k < |states|
    requires Indexed(states[i].world.keys, scope, order)
    ensures var middle := states[j].world.keys;
            var answer := ListActive(order, middle, states[k].world.keys, scope);
            && answer.Listed? && |answer.value| == |order|
            && forall n | 0 <= n < |order| ::
                 && order[n] in middle.active
                 && GenerationKey(order[n], middle.active[order[n]]) in middle.gens
                 && answer.value[n] == middle.gens[GenerationKey(order[n], middle.active[order[n]])].value.manifest
                 && KeyOf(answer.value[n]) == GenerationKey(order[n], middle.active[order[n]])
  {
    hide KeysOk, Evolves, WorkerOk;
    RunKeeps(states, events, i, i);
    RunKeeps(states, events, i, j);
    RunKeeps(states, events, j, k);
    var s, t, u := states[i].world, states[j].world, states[k].world;
    PointersStay(s, t, scope, order);
    RecordsStay(t, u, scope, order);
    var pairs := ReadPointers(t.keys, order).value;
    forall n | 0 <= n < |order|
      ensures pairs[n] in t.keys.gens && KeyOf(t.keys.gens[pairs[n]].value.manifest) == pairs[n]
    {
      assert RecordListed(u.keys, scope, pairs[n]);
    }
  }
}
