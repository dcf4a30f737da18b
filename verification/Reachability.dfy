/** Systems reached by a run of the lifecycle. */
module Reachability {
  import opened Domain
  import opened Lifecycle

  ghost predicate Reaches(cap: Option<real>, s: System) {
    exists states: seq<System>, events: seq<Event> :: Run(cap, states, events) && states[|events|] == s
  }

  lemma ReachesInitial(cap: Option<real>, s: System)
    requires Initial(s)
    ensures Reaches(cap, s)
  {
    var none: seq<Event> := [];
    assert Run(cap, [s], none) && [s][|none|] == s;
  }

  lemma CapOnlyRestricts(cap: Option<real>, s: System, e: Event)
    requires Enabled(cap, s, e)
    ensures Enabled(None, s, e)
  {
  }

  lemma ReachesNext(cap: Option<real>, s: System, e: Event, t: System)
    requires Reaches(cap, s) && Enabled(cap, s, e) && Enabled(None, s, e) && t == Next(s, e)
    ensures Reaches(cap, t)
  {
    hide Enabled, Next;
    var states: seq<System>, events: seq<Event> :| Run(cap, states, events) && states[|events|] == s;
    var states', events' := states + [t], events + [e];
    forall i | 0 <= i < |events'|
      ensures Enabled(cap, states'[i], events'[i]) && Enabled(None, states'[i], events'[i])
      ensures states'[i + 1] == Next(states'[i], events'[i])
    {
      CapOnlyRestricts(cap, states'[i], events'[i]);
    }
    assert Run(cap, states', events') && states'[|events'|] == t;
  }
}
