/** What the request bracket achieves: a request that is let through and answered is served and charged, and
    one that is stopped is neither. */
module RequestTheorems {
  import opened Domain
  import opened Budget
  import B = BudgetTheorems

  // ---------------------------------------------------------------- authorize and commit decide

  ghost predicate HoldsExactly(k: Ledger, r: Reservation, state: ReservationState) {
    r.id in k.reservations && k.reservations[r.id].reservation == Reservation(r.id, r.budget, r.principal, r.units, state)
  }

  /** A commit goes on to the paid call exactly when it is answered and the ledger held that reservation's exact
      AUTHORIZED record; then the ledger holds the COMMITTED one, with the same expiry, and is otherwise as it
      was. In every other case the request goes on to its release. */
  lemma CommitDecides(states: seq<System>, events: seq<Event>, i: nat, id: nat, c: Choice)
    requires Run(states, events) && i < |states| && id in states[i].requests && states[i].requests[id].phase == Commit
    requires Enabled(states[i], Act(id, c))
    ensures var s := states[i].world; var r := states[i].requests[id].reservation;
            var t := Next(states[i], Act(id, c)).world; var phase := Next(states[i], Act(id, c)).requests[id].phase;
            && (phase == Embed <==> c.fate == Delivered && HoldsExactly(s.ledger, r, Authorized))
            && (phase != Embed ==> phase == Release)
            && (phase == Embed ==>
                  && HoldsExactly(t.ledger, r, Committed)
                  && t.ledger.reservations == s.ledger.reservations[r.id := t.ledger.reservations[r.id]]
                  && t.ledger.reservations[r.id].expires == s.ledger.reservations[r.id].expires
                  && t.ledger.budgets == s.ledger.budgets)
            && (c.fate == Dropped || !HoldsExactly(s.ledger, r, Authorized) ==> t.ledger == s.ledger)
  {
    hide B.SystemOk, Run;
    B.RunKeeps(states, events, i, i);
    RequestKnown(states[i], id);
  }

  ghost predicate CounterReadable(k: Ledger, b: string, ttl: nat) {
    k.Used(b) > 0 ==> ttl >= 1
  }

  /** An answered authorization of a counter it can read lets the request through exactly when its units still
      fit under the limit; then the ledger holds its AUTHORIZED record and counts its units. A request that does
      not fit ends there, one whose authorization is not answered or fails closed goes on to the release, and
      an authorization that is lost, does not fit or fails closed writes nothing. */
  lemma AuthorizeDecides(states: seq<System>, events: seq<Event>, i: nat, id: nat, c: Choice)
    requires Run(states, events) && i < |states| && id in states[i].requests && states[i].requests[id].phase == Authorize
    requires Enabled(states[i], Act(id, c))
    ensures var k := states[i].world.ledger; var r := states[i].requests[id].reservation; var limit := states[0].limit;
            var k' := Next(states[i], Act(id, c)).world.ledger; var phase := Next(states[i], Act(id, c)).requests[id].phase;
            var readable := CounterReadable(k, r.budget, c.ttl); var fits := k.Used(r.budget) + r.units <= limit;
            && (phase == Check <==> c.fate == Delivered && readable && fits)
            && (phase == ReleaseIndeterminate <==> r.units <= limit && (c.fate != Delivered || !readable))
            && (phase != Check && phase != ReleaseIndeterminate ==> phase == Done)
            && (c.fate != Dropped && readable && fits ==>
                  && HoldsExactly(k', r, Authorized) && k'.reservations == k.reservations[r.id := k'.reservations[r.id]]
                  && k'.Used(r.budget) == k.Used(r.budget) + r.units && forall b | b != r.budget :: k'.Used(b) == k.Used(b))
            && (c.fate == Dropped || !readable || !fits ==> k' == k)
  {
    hide B.SystemOk, B.AllBalanced, Run;
    B.RunKeeps(states, events, i, i);
    B.RunBalances(states, events, i);
    RequestKnown(states[i], id);
    CounterKnown(states[i].world, states[i].limit, states[i].requests[id].reservation.budget);
  }

  lemma CounterKnown(s: World, limit: nat, b: string)
    requires B.AllBalanced(s, limit)
    ensures B.Balanced(s.ledger, s, limit, b)
  {
  }

  /** A reservation ID that was used before lets nobody through and changes nothing, in every state of the ledger. */
  lemma UsedIdRefused(s: World, q: Request, limit: nat, c: Choice)
    requires q.phase == Authorize && q.reservation.units <= limit && q.reservation.id in s.ledger.reservations
    ensures var e := Step(s, q, limit, c);
            e.world == s && e.request.phase == if c.fate == Delivered then Done else ReleaseIndeterminate
  {
  }

  lemma RequestKnown(s: System, id: nat)
    requires B.SystemOk(s) && id in s.requests
    ensures B.RequestOk(s.world, s.requests[id]) && B.StoryOf(s.world, s.requests[id].reservation.id)
  {
  }

  // ---------------------------------------------------------------- served requests

  /** So far every command of request `id` was answered, and nothing stopped it. */
  ghost predicate Unhindered(events: seq<Event>, i: nat, id: nat)
    requires i <= |events|
  {
    forall j | 0 <= j < i && events[j].Act? && events[j].id == id :: events[j].choice.fate == Delivered && events[j].choice.proceed
  }

  ghost predicate Passed(states: seq<System>, i: nat, id: nat, phase: Phase)
    requires i <= |states|
  {
    exists j :: 0 <= j < i && id in states[j].requests && states[j].requests[id].phase == phase
  }

  ghost predicate Served(states: seq<System>, i: nat, id: nat)
    requires i < |states| && id in states[i].requests
  {
    && Passed(states, i, id, Embed) && Passed(states, i, id, Generate)
    && states[i].requests[id].reservation.id in states[i].world.committed
  }

  /** What holds of an unhindered request in each phase, as long as its key has not expired. */
  ghost predicate OnTrack(states: seq<System>, i: nat, id: nat)
    requires i < |states| && id in states[i].requests
  {
    var s, q := states[i].world, states[i].requests[id];
    q.reservation.id !in s.vanished ==>
      match q.phase
      case Authorize => true
      case ReleaseIndeterminate => q.reservation.id !in s.ledger.reservations
      case Check => HoldsExactly(s.ledger, q.reservation, Authorized)
      case Commit => HoldsExactly(s.ledger, q.reservation, Authorized)
      case Embed => q.reservation.id in s.committed
      case Generate => q.reservation.id in s.committed && Passed(states, i, id, Embed)
      case Release => Served(states, i, id)
      case Done => q.reservation.id in s.ledger.reservations ==> Served(states, i, id)
  }

  lemma {:induction false} StaysOnTrack(states: seq<System>, events: seq<Event>, i: nat, id: nat)
    requires Run(states, events) && i < |states| && id in states[i].requests && Unhindered(events, i, id)
    ensures OnTrack(states, i, id)
  {
    hide B.SystemOk, Next, Enabled, OnTrack, B.Evolves;
    if i == 0 {
      NoRequestsYet(states, events, id);
    } else {
      var s, e := states[i - 1], events[i - 1];
      assert Enabled(s, e) && states[i - 1 + 1] == Next(s, e);
      B.RunKeeps(states, events, i - 1, i);
      if id in s.requests {
        StaysOnTrack(states, events, i - 1, id);
        if e.Act? && e.id == id {
          OwnStepOnTrack(states, events, i, id);
        } else {
          OtherEventOnTrack(states, events, i, id);
        }
      } else {
        BeginsOnTrack(states, events, i, id);
      }
    }
  }

  lemma NoRequestsYet(states: seq<System>, events: seq<Event>, id: nat)
    requires Run(states, events)
    ensures id !in states[0].requests
  {
  }

  lemma BeginsOnTrack(states: seq<System>, events: seq<Event>, i: nat, id: nat)
    requires 0 < i < |states| && i <= |events| && Enabled(states[i - 1], events[i - 1]) && states[i] == Next(states[i - 1], events[i - 1])
    requires id in states[i].requests && id !in states[i - 1].requests
    ensures OnTrack(states, i, id)
  {
    hide Step;
  }

  lemma PassedLater(states: seq<System>, i: nat, id: nat, phase: Phase)
    requires 0 < i < |states|
    ensures Passed(states, i - 1, id, phase) ==> Passed(states, i, id, phase)
    ensures id in states[i - 1].requests && states[i - 1].requests[id].phase == phase ==> Passed(states, i, id, phase)
  {
  }

  lemma OwnStepOnTrack(states: seq<System>, events: seq<Event>, i: nat, id: nat)
    requires 0 < i < |states| && i <= |events| && Enabled(states[i - 1], events[i - 1]) && states[i] == Next(states[i - 1], events[i - 1])
    requires B.SystemOk(states[i - 1]) && id in states[i - 1].requests && events[i - 1].Act? && events[i - 1].id == id
    requires OnTrack(states, i - 1, id) && events[i - 1].choice.fate == Delivered && events[i - 1].choice.proceed
    ensures id in states[i].requests && OnTrack(states, i, id)
  {
    hide B.SystemOk, Passed, Enabled;
    RequestKnown(states[i - 1], id);
    PassedLater(states, i, id, Embed);
    PassedLater(states, i, id, Generate);
  }

  lemma OtherEventOnTrack(states: seq<System>, events: seq<Event>, i: nat, id: nat)
    requires 0 < i < |states| && i <= |events| && Enabled(states[i - 1], events[i - 1]) && states[i] == Next(states[i - 1], events[i - 1])
    requires B.SystemOk(states[i - 1]) && id in states[i - 1].requests && !(events[i - 1].Act? && events[i - 1].id == id)
    requires OnTrack(states, i - 1, id) && B.Evolves(states[i - 1].world, states[i].world)
    ensures id in states[i].requests && OnTrack(states, i, id)
  {
    hide B.SystemOk, Passed;
    PassedLater(states, i, id, Embed);
    PassedLater(states, i, id, Generate);
    OthersKeep(states[i - 1], events[i - 1], id);
  }

  /** An event that is not the request's own leaves its record alone, unless the key expires. */
  lemma OthersKeep(s: System, e: Event, id: nat)
    requires B.SystemOk(s) && Enabled(s, e) && id in s.requests && !(e.Act? && e.id == id)
    ensures var t := Next(s, e); var key := s.requests[id].reservation.id;
            && id in t.requests && t.requests[id] == s.requests[id]
            && s.world.vanished <= t.world.vanished && s.world.committed <= t.world.committed
            && (key !in t.world.vanished ==>
                  && (key in t.world.ledger.reservations <==> key in s.world.ledger.reservations)
                  && (key in s.world.ledger.reservations ==> t.world.ledger.reservations[key] == s.world.ledger.reservations[key]))
  {
    hide B.StoriesOk, B.KnownIds, Step, B.StoryOf, B.PhaseOk;
    B.EventKeeps(s, e);
    if e.Act? {
      RequestKnown(s, e.id);
      B.StepMovesOne(s.world, s.requests[e.id], s.limit, e.choice);
    }
  }

  /** In every run, whatever other requests do: a request that was admitted and whose commands are all answered
      is served. When it has ended it made the embedding call and the generation call, and its reservation is
      COMMITTED and charged, unless its key has expired. */
  lemma AnsweredRequestIsServed(states: seq<System>, events: seq<Event>, i: nat, id: nat)
    requires Run(states, events) && i < |states| && id in states[i].requests && Unhindered(events, i, id)
    requires states[i].requests[id].phase == Done
    requires var key := states[i].requests[id].reservation.id;
             key in states[i].world.ledger.reservations && key !in states[i].world.vanished
    ensures Passed(states, i, id, Embed) && Passed(states, i, id, Generate)
    ensures HoldsExactly(states[i].world.ledger, states[i].requests[id].reservation, Committed)
    ensures var r := states[i].requests[id].reservation; states[i].world.ledger.reservations[r.id].reservation.Charge(r.budget) == r.units
  {
    hide B.SystemOk, Passed;
    StaysOnTrack(states, events, i, id);
    B.RunKeeps(states, events, i, i);
    RequestKnown(states[i], id);
  }

  // ---------------------------------------------------------------- an undisturbed request

  /** The request alone, with every command answered and nothing to stop it. */
  ghost predicate Alone(effects: seq<Effect>, choices: seq<Choice>, limit: nat) {
    && |effects| == |choices| + 1
    && forall i | 0 <= i < |choices| ::
         && choices[i].fate == Delivered && choices[i].proceed && choices[i].window > 0
         && effects[i + 1] == Step(effects[i].world, effects[i].request, limit, choices[i])
  }

  /** A new request that fits the budget; a counter in use still has a full second to live. */
  ghost predicate Fits(s: World, q: Request, limit: nat, ttl: nat) {
    && q.phase == Authorize && q.reservation.Valid() && q.reservation.state == Authorized
    && q.reservation.id !in s.ledger.reservations
    && s.ledger.Used(q.reservation.budget) + q.reservation.units <= limit
    && (s.ledger.Used(q.reservation.budget) > 0 ==>
          s.ledger.budgets[q.reservation.budget].expires.Some? && ttl >= 1)
  }

  /** A request that fits the budget and is not disturbed makes both paid calls in turn and ends, after six
      steps, with its reservation COMMITTED and its units added to the counter; nothing else changed. */
  lemma UndisturbedRequest(effects: seq<Effect>, choices: seq<Choice>, limit: nat)
    requires Alone(effects, choices, limit) && |effects| == |choices| + 1 == 7
    requires Fits(effects[0].world, effects[0].request, limit, choices[0].ttl)
    ensures var s := effects[0].world.ledger; var t := effects[6].world.ledger; var r := effects[0].request.reservation;
            && effects[3].request.phase == Embed && effects[4].request.phase == Generate
            && effects[6].request.phase == Done && effects[6].request.answered
            && HoldsExactly(t, r, Committed) && t.reservations == s.reservations[r.id := t.reservations[r.id]]
            && t.Used(r.budget) == s.Used(r.budget) + r.units
            && forall b | b != r.budget :: t.Used(b) == s.Used(b)
  {
    assert effects[1] == Step(effects[0].world, effects[0].request, limit, choices[0]);
    assert effects[1].request.phase == Check;
    assert effects[2] == Step(effects[1].world, effects[1].request, limit, choices[1]);
    assert effects[3] == Step(effects[2].world, effects[2].request, limit, choices[2]);
    assert effects[3].request.phase == Embed;
    assert effects[4] == Step(effects[3].world, effects[3].request, limit, choices[3]);
    assert effects[5] == Step(effects[4].world, effects[4].request, limit, choices[4]);
    assert effects[6] == Step(effects[5].world, effects[5].request, limit, choices[5]);
  }

  // ---------------------------------------------------------------- stopped requests

  ghost predicate Over(p: Phase) {
    p.Release? || p.Done?
  }

  /** A request that is stopped at its checks is never committed, and one that is stopped after its embedding
      call never generates: from then on it only releases. */
  lemma {:induction false} StoppedRequestOnlyReleases(states: seq<System>, events: seq<Event>, i: nat, j: nat, id: nat, c: Choice)
    requires Run(states, events) && i < j < |states| && id in states[i].requests && events[i] == Act(id, c) && !c.proceed
    requires states[i].requests[id].phase == Check || states[i].requests[id].phase == Embed
    ensures id in states[j].requests && Over(states[j].requests[id].phase)
    ensures states[j].requests[id].reservation == states[i].requests[id].reservation
    ensures states[i].requests[id].phase == Check ==> states[i].requests[id].reservation.id !in states[j].world.committed
  {
    hide B.SystemOk;
    var s, e := states[j - 1], events[j - 1];
    assert Enabled(s, e) && states[j - 1 + 1] == Next(s, e);
    B.RunKeeps(states, events, j - 1, j - 1);
    if i < j - 1 {
      StoppedRequestOnlyReleases(states, events, i, j - 1, id, c);
      StaysOver(s, e, id);
    } else {
      RequestKnown(s, id);
      StopsHere(s, id, c);
    }
  }

  lemma StopsHere(s: System, id: nat, c: Choice)
    requires id in s.requests && Enabled(s, Act(id, c)) && !c.proceed && B.RequestOk(s.world, s.requests[id])
    requires s.requests[id].phase == Check || s.requests[id].phase == Embed
    ensures var t := Next(s, Act(id, c));
            && t.requests[id].phase == Release && t.requests[id].reservation == s.requests[id].reservation && t.world == s.world
  {
  }

  lemma StaysOver(s: System, e: Event, id: nat)
    requires B.SystemOk(s) && Enabled(s, e) && id in s.requests && Over(s.requests[id].phase)
    ensures var t := Next(s, e);
            && id in t.requests && Over(t.requests[id].phase) && t.requests[id].reservation == s.requests[id].reservation
            && (s.requests[id].reservation.id in t.world.committed ==> s.requests[id].reservation.id in s.world.committed)
  {
    hide B.StoriesOk, B.KnownIds, B.StoryOf, B.PhaseOk, B.Same;
  }
}
