/** Budget conservation and commit-before-pay over every run of the request bracket. */
module BudgetTheorems {
  import opened Domain
  import opened Budget

  // ---------------------------------------------------------------- units charged to a budget

  /** The units of the AUTHORIZED and COMMITTED reservations of budget `b`. */
  ghost function ChargedUnits(m: map<string, Stored>, b: string): nat
    decreases |m|
  {
    if m == map[] then 0
    else
      var id :| id in m;
      m[id].reservation.Charge(b) + ChargedUnits(m - {id}, b)
  }

  lemma {:induction false} ChargedRemove(m: map<string, Stored>, b: string, id: string)
    requires id in m
    ensures ChargedUnits(m, b) == m[id].reservation.Charge(b) + ChargedUnits(m - {id}, b)
    decreases |m|
  {
    var pick :| pick in m && ChargedUnits(m, b) == m[pick].reservation.Charge(b) + ChargedUnits(m - {pick}, b);
    if pick != id {
      ChargedRemove(m - {pick}, b, id);
      ChargedRemove(m - {id}, b, pick);
      assert m - {pick} - {id} == m - {id} - {pick};
    }
  }

  /** Writing one reservation changes the sum by the difference of its charges. */
  lemma ChargedWrite(m: map<string, Stored>, b: string, r: Reservation, expires: real)
    ensures ChargedUnits(m[r.id := Stored(r, expires)], b)
              == ChargedUnits(m, b) - (if r.id in m then m[r.id].reservation.Charge(b) else 0) + r.Charge(b)
  {
    ChargedRemove(m[r.id := Stored(r, expires)], b, r.id);
    if r.id in m {
      ChargedRemove(m, b, r.id);
    }
    assert m[r.id := Stored(r, expires)] - {r.id} == m - {r.id};
    if r.id !in m {
      assert m - {r.id} == m;
    }
  }

  // ---------------------------------------------------------------- invariants

  type Reservations = map<string, Stored>

  ghost predicate Balanced(k: Ledger, s: World, limit: nat, b: string) {
    && k.Used(b) + s.Cleared(b) == ChargedUnits(k.reservations, b) + s.Lost(b)
    && k.Used(b) <= limit
    && (b in k.budgets ==> k.budgets[b].units > 0 && k.budgets[b].expires.Some?)
  }

  ghost predicate AllBalanced(s: World, limit: nat) {
    forall b :: Balanced(s.ledger, s, limit, b)
  }

  /** A reservation's key, its commit history and its refund history tell the same story. */
  ghost predicate StoryOf(s: World, id: string) {
    var m := s.ledger.reservations;
    && (id in m ==> m[id].reservation.id == id && id !in s.vanished)
    && (id in m ==> (m[id].reservation.state == Committed <==> id in s.committed))
    && (id in m ==> (m[id].reservation.state == Released <==> id in s.refunded))
    && (id !in m && id !in s.vanished ==> id !in s.committed && id !in s.refunded)
    && !(id in s.committed && id in s.refunded)
  }

  ghost predicate StoriesOk(s: World) {
    Distinct(s.refunded) && forall id :: StoryOf(s, id)
  }

  ghost predicate Same(m: Reservations, r: Reservation) {
    r.id in m ==> m[r.id].reservation == r.WithState(m[r.id].reservation.state)
  }

  ghost predicate PhaseOk(s: World, q: Request) {
    var id := q.reservation.id;
    match q.phase
    case Authorize => id !in s.ledger.reservations && id !in s.vanished && !q.answered
    case ReleaseIndeterminate => id !in s.committed && !q.answered
    case Check => id !in s.committed && !q.answered
    case Commit => id !in s.committed && !q.answered
    case Embed => id in s.committed && !q.answered
    case Generate => id in s.committed && !q.answered
    case Release => !q.answered
    case Done => q.answered && id in s.ledger.reservations ==> s.ledger.reservations[id].reservation.state != Authorized
  }

  ghost predicate RequestOk(s: World, q: Request) {
    && q.reservation.Valid() && q.reservation.state == Authorized
    && Same(s.ledger.reservations, q.reservation)
    && PhaseOk(s, q)
  }

  ghost predicate OwnIds(requests: map<nat, Request>) {
    forall i, j | i in requests && j in requests && i != j :: requests[i].reservation.id != requests[j].reservation.id
  }

  ghost predicate KnownIds(s: System) {
    forall id | id in s.world.ledger.reservations || id in s.world.vanished ::
      exists q :: q in s.requests && s.requests[q].reservation.id == id
  }

  ghost predicate RequestsOk(s: System) {
    forall q | q in s.requests :: RequestOk(s.world, s.requests[q])
  }

  ghost predicate SystemOk(s: System) {
    && StoriesOk(s.world) && RequestsOk(s) && OwnIds(s.requests) && KnownIds(s)
  }

  // ---------------------------------------------------------------- the scripts keep the balance

  lemma AuthorizeBalances(s: World, r: Reservation, limit: nat, window: nat, now: real, ttl: nat)
    requires AllBalanced(s, limit) && r.Valid() && r.state == Authorized
    ensures AllBalanced(s.(ledger := AuthorizeScript(s.ledger, r, limit, window, now, ttl).ledger), limit)
  {
    var k, k' := s.ledger, AuthorizeScript(s.ledger, r, limit, window, now, ttl).ledger;
    forall b ensures Balanced(k', s.(ledger := k'), limit, b) {
      assert Balanced(k, s, limit, b) && Balanced(k, s, limit, r.budget);
      ChargedWrite(k.reservations, b, r, now + window as real);
    }
  }

  lemma CommitBalances(s: World, r: Reservation, limit: nat)
    requires AllBalanced(s, limit) && r.state == Authorized
    ensures AllBalanced(s.(ledger := CommitScript(s.ledger, r).ledger), limit)
  {
    var k, k' := s.ledger, CommitScript(s.ledger, r).ledger;
    forall b ensures Balanced(k', s.(ledger := k'), limit, b) {
      assert Balanced(k, s, limit, b);
      if k.Stores(r) { ChargedWrite(k.reservations, b, r.WithState(Committed), k.reservations[r.id].expires); }
    }
  }

  lemma ReleaseBalances(s: World, r: Reservation, limit: nat)
    requires AllBalanced(s, limit) && r.Valid() && r.state == Authorized
    ensures AllBalanced(s.(ledger := ReleaseScript(s.ledger, r).ledger), limit)
  {
    var k, k' := s.ledger, ReleaseScript(s.ledger, r).ledger;
    assert Balanced(k, s, limit, r.budget);
    forall b ensures Balanced(k', s.(ledger := k'), limit, b) {
      assert Balanced(k, s, limit, b);
      if k.Stores(r) { ChargedWrite(k.reservations, b, r.WithState(Released), k.reservations[r.id].expires); }
    }
  }

  lemma VanishBalances(s: World, id: string, limit: nat)
    requires AllBalanced(s, limit) && id in s.ledger.reservations
    ensures AllBalanced(Vanish(s, id), limit)
  {
    var t := Vanish(s, id);
    forall b ensures Balanced(t.ledger, t, limit, b) {
      assert Balanced(s.ledger, s, limit, b);
      ChargedRemove(s.ledger.reservations, b, id);
    }
  }

  lemma ClearBalances(s: World, b: string, limit: nat)
    requires AllBalanced(s, limit)
    ensures AllBalanced(Clear(s, b), limit)
  {
    var t := Clear(s, b);
    forall other ensures Balanced(t.ledger, t, limit, other) {
      assert Balanced(s.ledger, s, limit, other);
    }
  }

  lemma SameLedgerBalances(s: World, t: World, limit: nat)
    requires AllBalanced(s.(ledger := t.ledger), limit) && t.lost == s.lost && t.cleared == s.cleared
    ensures AllBalanced(t, limit)
  {
    forall b ensures Balanced(t.ledger, t, limit, b) {
      assert Balanced(t.ledger, s.(ledger := t.ledger), limit, b);
    }
  }

  lemma StepBalances(s: World, q: Request, limit: nat, c: Choice)
    requires AllBalanced(s, limit) && q.reservation.Valid() && q.reservation.state == Authorized
    ensures AllBalanced(Step(s, q, limit, c).world, limit)
  {
    hide AllBalanced, AuthorizeScript, CommitScript, ReleaseScript;
    var r := q.reservation;
    AuthorizeBalances(s, r, limit, c.window, s.now, c.ttl);
    CommitBalances(s, r, limit);
    ReleaseBalances(s, r, limit);
    assert s.(ledger := s.ledger) == s;
    SameLedgerBalances(s, Step(s, q, limit, c).world, limit);
  }

  // ---------------------------------------------------------------- the scripts keep every story

  lemma AuthorizeTells(s: World, r: Reservation, limit: nat, window: nat, now: real, ttl: nat)
    requires StoriesOk(s) && r.state == Authorized && r.id !in s.vanished
    ensures StoriesOk(s.(ledger := AuthorizeScript(s.ledger, r, limit, window, now, ttl).ledger))
  {
    var t := s.(ledger := AuthorizeScript(s.ledger, r, limit, window, now, ttl).ledger);
    forall id ensures StoryOf(t, id) {
      assert StoryOf(s, id);
    }
  }

  lemma CommitTells(s: World, r: Reservation, fate: Fate)
    requires StoriesOk(s) && r.state == Authorized
    ensures StoriesOk(CommitEffect(s, r, fate))
  {
    forall id ensures StoryOf(CommitEffect(s, r, fate), id) {
      assert StoryOf(s, id);
    }
  }

  lemma ReleaseTells(s: World, r: Reservation, fate: Fate)
    requires StoriesOk(s) && r.state == Authorized
    ensures StoriesOk(ReleaseEffect(s, r, fate))
  {
    assert StoryOf(s, r.id);
    if r.id !in s.refunded {
      DistinctAppend(s.refunded, r.id);
    }
    forall id ensures StoryOf(ReleaseEffect(s, r, fate), id) {
      assert StoryOf(s, id);
    }
  }

  lemma VanishTells(s: World, id: string)
    requires StoriesOk(s) && id in s.ledger.reservations
    ensures StoriesOk(Vanish(s, id))
  {
    forall other ensures StoryOf(Vanish(s, id), other) {
      assert StoryOf(s, other);
    }
  }

  lemma StepTells(s: World, q: Request, limit: nat, c: Choice)
    requires StoriesOk(s) && RequestOk(s, q)
    ensures StoriesOk(Step(s, q, limit, c).world)
  {
    hide StoriesOk, AuthorizeScript, CommitEffect, ReleaseEffect;
    var r := q.reservation;
    match q.phase
    case Authorize => AuthorizeTells(s, r, limit, c.window, s.now, c.ttl); assert s.(ledger := s.ledger) == s;
    case Commit => CommitTells(s, r, c.fate);
    case ReleaseIndeterminate => ReleaseTells(s, r, c.fate);
    case Release => ReleaseTells(s, r, c.fate);
    case _ =>
  }

  // ---------------------------------------------------------------- a step moves one reservation only

  /** Terminal states are final, and nothing is forgotten. */
  ghost predicate Evolves(s: World, t: World) {
    && s.committed <= t.committed && s.vanished <= t.vanished && s.refunded <= t.refunded
    && forall id | id in s.ledger.reservations && s.ledger.reservations[id].reservation.state != Authorized ::
         id in t.vanished || (id in t.ledger.reservations && t.ledger.reservations[id] == s.ledger.reservations[id])
  }

  ghost predicate OthersUnchanged(s: World, t: World, id: string) {
    forall other | other != id ::
      && (other in t.ledger.reservations <==> other in s.ledger.reservations)
      && (other in s.ledger.reservations ==> t.ledger.reservations[other] == s.ledger.reservations[other])
      && (other in t.committed <==> other in s.committed)
      && (other in t.vanished <==> other in s.vanished)
  }

  ghost predicate Moved(s: World, q: Request, e: Effect) {
    && RequestOk(e.world, e.request) && e.request.reservation == q.reservation
    && OthersUnchanged(s, e.world, q.reservation.id) && Evolves(s, e.world)
    && e.world.vanished == s.vanished
    && e.world.ledger.reservations.Keys <= s.ledger.reservations.Keys + {q.reservation.id}
  }

  lemma StepMovesOne(s: World, q: Request, limit: nat, c: Choice)
    requires StoriesOk(s) && RequestOk(s, q)
    ensures Moved(s, q, Step(s, q, limit, c))
  {
    hide StoriesOk, Distinct;
    StoryAt(s, q.reservation.id);
    match q.phase
    case Authorize => AuthorizeMoves(s, q, limit, c);
    case Commit => CommitMoves(s, q, limit, c);
    case ReleaseIndeterminate => ReleaseMoves(s, q, limit, c);
    case Release => ReleaseMoves(s, q, limit, c);
    case _ => IdleMoves(s, q, limit, c);
  }

  lemma AuthorizeMoves(s: World, q: Request, limit: nat, c: Choice)
    requires StoryOf(s, q.reservation.id) && RequestOk(s, q) && q.phase.Authorize?
    ensures Moved(s, q, Step(s, q, limit, c))
  {
  }

  lemma CommitMoves(s: World, q: Request, limit: nat, c: Choice)
    requires StoryOf(s, q.reservation.id) && RequestOk(s, q) && q.phase.Commit?
    ensures Moved(s, q, Step(s, q, limit, c))
  {
  }

  lemma ReleaseMoves(s: World, q: Request, limit: nat, c: Choice)
    requires StoryOf(s, q.reservation.id) && RequestOk(s, q) && (q.phase.Release? || q.phase.ReleaseIndeterminate?)
    ensures Moved(s, q, Step(s, q, limit, c))
  {
  }

  lemma IdleMoves(s: World, q: Request, limit: nat, c: Choice)
    requires RequestOk(s, q) && (q.phase.Check? || Paid(q.phase) || q.phase.Done?)
    ensures Moved(s, q, Step(s, q, limit, c))
  {
  }

  lemma StoryAt(s: World, id: string)
    requires StoriesOk(s)
    ensures StoryOf(s, id)
  {
  }

  lemma OthersStayOk(s: World, t: World, id: string, q: Request)
    requires RequestOk(s, q) && OthersUnchanged(s, t, id) && q.reservation.id != id
    ensures RequestOk(t, q)
  {
  }

  lemma VanishKeepsRequest(s: World, id: string, q: Request)
    requires id in s.ledger.reservations && RequestOk(s, q)
    ensures RequestOk(Vanish(s, id), q)
  {
  }

  // ---------------------------------------------------------------- one event

  lemma ActKeeps(s: System, id: nat, c: Choice)
    requires SystemOk(s) && Enabled(s, Act(id, c))
    ensures var t := Next(s, Act(id, c)); SystemOk(t) && Evolves(s.world, t.world)
  {
    hide StoriesOk, RequestOk, OthersUnchanged, Evolves, Step, Distinct;
    var t := Next(s, Act(id, c));
    var q := s.requests[id];
    StepTells(s.world, q, s.limit, c);
    StepMovesOne(s.world, q, s.limit, c);
    forall other | other in t.requests ensures RequestOk(t.world, t.requests[other]) {
      if other != id {
        OthersStayOk(s.world, t.world, q.reservation.id, s.requests[other]);
      }
    }
    forall key | key in t.world.ledger.reservations || key in t.world.vanished
      ensures exists o :: o in t.requests && t.requests[o].reservation.id == key
    {
      if key == q.reservation.id {
        assert t.requests[id].reservation.id == key;
      } else {
        var o :| o in s.requests && s.requests[o].reservation.id == key;
        assert t.requests[o].reservation.id == key;
      }
    }
  }

  lemma BeginKeeps(s: System, id: nat, r: Reservation)
    requires SystemOk(s) && Enabled(s, Begin(id, r))
    ensures var t := Next(s, Begin(id, r)); SystemOk(t) && t.world == s.world
  {
    hide StoriesOk;
    var t := Next(s, Begin(id, r));
    forall key | key in t.world.ledger.reservations || key in t.world.vanished
      ensures exists o :: o in t.requests && t.requests[o].reservation.id == key
    {
      var o :| o in s.requests && s.requests[o].reservation.id == key;
      assert t.requests[o].reservation.id == key;
    }
  }

  lemma VanishKeeps(s: System, key: string)
    requires SystemOk(s) && Enabled(s, ReservationExpires(key))
    ensures var t := Next(s, ReservationExpires(key)); SystemOk(t) && Evolves(s.world, t.world)
  {
    hide RequestOk;
    VanishTells(s.world, key);
    forall q | q in s.requests ensures RequestOk(Vanish(s.world, key), s.requests[q]) {
      VanishKeepsRequest(s.world, key, s.requests[q]);
    }
  }

  lemma SameReservationsKeep(s: System, t: World)
    requires SystemOk(s) && t.ledger.reservations == s.world.ledger.reservations
    requires t.committed == s.world.committed && t.refunded == s.world.refunded && t.vanished == s.world.vanished
    ensures SystemOk(s.(world := t)) && Evolves(s.world, t)
  {
    forall id ensures StoryOf(t, id) {
      assert StoryOf(s.world, id);
    }
  }

  lemma EventKeeps(s: System, e: Event)
    requires SystemOk(s) && Enabled(s, e)
    ensures SystemOk(Next(s, e)) && Evolves(s.world, Next(s, e).world) && Next(s, e).limit == s.limit
  {
    hide SystemOk, Step, Evolves;
    match e
    case Begin(id, r) => BeginKeeps(s, id, r); EvolvesReflexive(s.world);
    case Act(id, c) => ActKeeps(s, id, c);
    case Elapse(now) => SameReservationsKeep(s, s.world.(now := now));
    case ReservationExpires(key) => VanishKeeps(s, key);
    case BudgetExpires(b) => SameReservationsKeep(s, Clear(s.world, b));
  }

  lemma EvolvesReflexive(s: World)
    ensures Evolves(s, s)
  {
  }

  lemma EvolvesTransitive(s: World, t: World, u: World)
    requires Evolves(s, t) && Evolves(t, u)
    ensures Evolves(s, u)
  {
  }

  lemma EventBalances(s: System, e: Event)
    requires SystemOk(s) && AllBalanced(s.world, s.limit) && Enabled(s, e)
    ensures AllBalanced(Next(s, e).world, s.limit)
  {
    hide AllBalanced, StoriesOk, Step;
    match e
    case Act(id, c) => StepBalances(s.world, s.requests[id], s.limit, c);
    case ReservationExpires(key) => VanishBalances(s.world, key, s.limit);
    case BudgetExpires(b) => ClearBalances(s.world, b, s.limit);
    case Begin(_, _) =>
    case Elapse(now) =>
      assert s.world.(ledger := s.world.ledger) == s.world;
      SameLedgerBalances(s.world, s.world.(now := now), s.limit);
  }

  // ---------------------------------------------------------------- whole runs

  lemma {:induction false} RunKeeps(states: seq<System>, events: seq<Event>, i: nat, j: nat)
    requires Run(states, events) && i <= j < |states|
    ensures SystemOk(states[i]) && SystemOk(states[j]) && Evolves(states[i].world, states[j].world)
    decreases j
  {
    hide SystemOk, Evolves, Next;
    if j == 0 {
      InitialOk(states[0]);
    } else if i == j {
      RunKeeps(states, events, i - 1, j - 1);
      EventKeeps(states[j - 1], events[j - 1]);
      EvolvesReflexive(states[i].world);
    } else {
      RunKeeps(states, events, i, j - 1);
      EventKeeps(states[j - 1], events[j - 1]);
      EvolvesTransitive(states[i].world, states[j - 1].world, states[j].world);
    }
  }

  lemma InitialOk(s: System)
    requires Initial(s)
    ensures SystemOk(s) && Evolves(s.world, s.world) && AllBalanced(s.world, s.limit)
  {
    forall id ensures StoryOf(s.world, id) {
    }
    forall b ensures Balanced(s.world.ledger, s.world, s.limit, b) {
    }
  }

  lemma {:induction false} RunBalances(states: seq<System>, events: seq<Event>, i: nat)
    requires Run(states, events) && i < |states|
    ensures AllBalanced(states[i].world, states[i].limit) && states[i].limit == states[0].limit
  {
    hide AllBalanced, Next, SystemOk;
    if i == 0 {
      InitialOk(states[0]);
    } else {
      RunBalances(states, events, i - 1);
      RunKeeps(states, events, i - 1, i - 1);
      EventBalances(states[i - 1], events[i - 1]);
      EventKeeps(states[i - 1], events[i - 1]);
    }
  }

  /** In every run a counter and the units cleared with its expired predecessors are exactly the units
      of the AUTHORIZED and COMMITTED reservations and of those whose own key expired; the counter
      never exceeds the limit. Until a key of the budget expires the counter is exactly what the live
      reservations charge. */
  lemma BudgetConserved(states: seq<System>, events: seq<Event>, i: nat, b: string)
    requires Run(states, events) && i < |states|
    ensures var s := states[i].world;
            && s.ledger.Used(b) + s.Cleared(b) == ChargedUnits(s.ledger.reservations, b) + s.Lost(b)
            && s.ledger.Used(b) <= states[0].limit
    ensures (forall j | 0 <= j < i :: events[j] != BudgetExpires(b)) ==> states[i].world.Cleared(b) == 0
    ensures (forall j | 0 <= j < i :: !events[j].ReservationExpires?) ==> states[i].world.Lost(b) == 0
  {
    RunBalances(states, events, i);
    assert Balanced(states[i].world.ledger, states[i].world, states[i].limit, b);
    if forall j | 0 <= j < i :: events[j] != BudgetExpires(b) {
      NothingCleared(states, events, i, b);
    }
    if forall j | 0 <= j < i :: !events[j].ReservationExpires? {
      NothingLost(states, events, i);
    }
  }

  lemma {:induction false} NothingCleared(states: seq<System>, events: seq<Event>, i: nat, b: string)
    requires Run(states, events) && i < |states| && forall j | 0 <= j < i :: events[j] != BudgetExpires(b)
    ensures states[i].world.Cleared(b) == 0
  {
    if i > 0 {
      NothingCleared(states, events, i - 1, b);
    }
  }

  lemma {:induction false} NothingLost(states: seq<System>, events: seq<Event>, i: nat)
    requires Run(states, events) && i < |states| && forall j | 0 <= j < i :: !events[j].ReservationExpires?
    ensures states[i].world.lost == map[]
  {
    if i > 0 {
      NothingLost(states, events, i - 1);
    }
  }

  // ---------------------------------------------------------------- the fail-closed replies

  /** Authorize fails closed exactly when a new reservation meets a counter in use and TTL answers zero.
      Such a counter has an expiry, less than a second away. */
  lemma AuthorizeRefusedExactly(states: seq<System>, events: seq<Event>, i: nat, r: Reservation, window: nat, ttl: nat)
    requires Run(states, events) && i < |states| && states[i].world.Remaining(r.budget, ttl)
    ensures var s := states[i].world; var k, b := s.ledger, r.budget;
            var refused := AuthorizeScript(k, r, states[i].limit, window, s.now, ttl).code == -2;
            && (refused <==> r.id !in k.reservations && k.Used(b) > 0 && ttl < 1)
            && (refused ==> LastSecond(s, b))
  {
    RunBalances(states, events, i);
    assert Balanced(states[i].world.ledger, states[i].world, states[i].limit, r.budget);
  }

  ghost predicate LastSecond(s: World, b: string) {
    b in s.ledger.budgets && s.ledger.budgets[b].expires.Some? && s.ledger.budgets[b].expires.value - s.now < 1.0
  }

  /** Before the command: it may fail closed exactly in the last second of the counter's life. */
  lemma AuthorizeMayRefuseExactly(states: seq<System>, events: seq<Event>, i: nat, r: Reservation, window: nat)
    requires Run(states, events) && i < |states| && states[i].world.UpToDate()
    ensures var s := states[i].world;
            (exists ttl: nat :: s.Remaining(r.budget, ttl) && AuthorizeScript(s.ledger, r, states[i].limit, window, s.now, ttl).code == -2)
              <==> r.id !in s.ledger.reservations && LastSecond(s, r.budget)
  {
    var s := states[i].world;
    RunBalances(states, events, i);
    assert Balanced(s.ledger, s, states[i].limit, r.budget);
    if r.id !in s.ledger.reservations && LastSecond(s, r.budget) {
      assert !s.BudgetOverdue(r.budget);
      assert s.Remaining(r.budget, 0);
      assert AuthorizeScript(s.ledger, r, states[i].limit, window, s.now, 0).code == -2;
    }
  }

  /** The counter of `b` expires while `other` is charged to `b` and lives on. */
  ghost predicate Outlives(s: World, b: string, other: string) {
    && b in s.ledger.budgets && s.ledger.budgets[b].expires.Some? && other in s.ledger.reservations
    && s.ledger.reservations[other].reservation.Charge(b) > 0
    && s.ledger.budgets[b].expires.value < s.ledger.reservations[other].expires
  }

  ghost predicate Outlived(states: seq<System>, events: seq<Event>, j: nat, b: string) {
    j < |events| < |states| && events[j] == BudgetExpires(b) && exists other :: Outlives(states[j].world, b, other)
  }

  lemma {:induction false} SomethingCharged(m: map<string, Stored>, b: string)
    requires ChargedUnits(m, b) > 0
    ensures exists id :: id in m && m[id].reservation.Charge(b) > 0
    decreases |m|
  {
    var id :| id in m;
    ChargedRemove(m, b, id);
    if m[id].reservation.Charge(b) == 0 {
      SomethingCharged(m - {id}, b);
    }
  }

  lemma ChargedOutlives(s: System, b: string)
    requires Enabled(s, BudgetExpires(b))
    ensures ChargedUnits(s.world.ledger.reservations, b) > 0 ==> exists other :: Outlives(s.world, b, other)
  {
    if ChargedUnits(s.world.ledger.reservations, b) > 0 {
      SomethingCharged(s.world.ledger.reservations, b);
      var other :| other in s.world.ledger.reservations && s.world.ledger.reservations[other].reservation.Charge(b) > 0;
      assert !s.world.Overdue(other);
      assert Outlives(s.world, b, other);
    }
  }

  /** As long as no charged reservation outlived a counter, counters cleared no more than what vanished
      with reservations. */
  lemma {:induction false} ClearedAtMostLost(states: seq<System>, events: seq<Event>, i: nat, b: string)
    requires Run(states, events) && i < |states| && forall j | 0 <= j < i :: !Outlived(states, events, j, b)
    ensures states[i].world.Cleared(b) <= states[i].world.Lost(b)
  {
    if i > 0 {
      ClearedAtMostLost(states, events, i - 1, b);
      var s := states[i - 1];
      assert Enabled(s, events[i - 1]) && states[i] == Next(s, events[i - 1]);
      if events[i - 1] == BudgetExpires(b) {
        BudgetConserved(states, events, i - 1, b);
        ChargedOutlives(s, b);
        assert !Outlived(states, events, i - 1, b);
      }
    }
  }

  /** Release fails closed exactly when the record is still the AUTHORIZED one and the counter holds
      less than its units, that is, when counters of its budget cleared more than what all other
      charges and lost ones account for. That needs a counter that expired before the key of a
      reservation charged to it. */
  lemma ReleaseRefusedExactly(states: seq<System>, events: seq<Event>, i: nat, id: nat)
    requires Run(states, events) && i < |states| && id in states[i].requests
    ensures var s := states[i].world; var r := states[i].requests[id].reservation; var code := ReleaseScript(s.ledger, r).code;
            && (code == -1 <==> s.ledger.Stores(r) && s.ledger.Used(r.budget) < r.units)
            && (code == -1 <==> (s.ledger.Stores(r)
                  && s.Cleared(r.budget) > ChargedUnits(s.ledger.reservations - {r.id}, r.budget) + s.Lost(r.budget)))
            && (code == -1 ==> exists j :: 0 <= j < i && Outlived(states, events, j, r.budget))
  {
    var s, r := states[i].world, states[i].requests[id].reservation;
    RunKeeps(states, events, i, i);
    assert RequestOk(s, states[i].requests[id]);
    BudgetConserved(states, events, i, r.budget);
    if s.ledger.Stores(r) {
      ChargedRemove(s.ledger.reservations, r.budget, r.id);
    }
    if forall j | 0 <= j < i :: !Outlived(states, events, j, r.budget) {
      ClearedAtMostLost(states, events, i, r.budget);
    }
  }

  /** When all windows of a budget end at one moment, as they would if seconds were not cut, no
      release of its reservations is ever refused. */
  lemma AlignedWindowsNeverRefuse(states: seq<System>, events: seq<Event>, b: string, end: real, i: nat, id: nat)
    requires Run(states, events) && i < |states| && id in states[i].requests && states[i].requests[id].reservation.budget == b
    requires forall j | 0 <= j < |events| :: WindowEndsAt(states[j], events[j], b, end)
    ensures ReleaseScript(states[i].world.ledger, states[i].requests[id].reservation).code != -1
  {
    ReleaseRefusedExactly(states, events, i, id);
    forall j | 0 <= j < i ensures !Outlived(states, events, j, b) {
      AlignedRun(states, events, b, end, j);
    }
  }

  ghost predicate WindowEndsAt(s: System, e: Event, b: string, end: real) {
    e.Act? && e.id in s.requests && s.requests[e.id].phase == Authorize && s.requests[e.id].reservation.budget == b ==>
      s.world.now + e.choice.window as real == end
  }

  ghost predicate Aligned(k: Ledger, b: string, end: real) {
    && (forall id | id in k.reservations && k.reservations[id].reservation.budget == b :: k.reservations[id].expires == end)
    && (b in k.budgets ==> k.budgets[b].units > 0 && k.budgets[b].expires == Some(end))
  }

  lemma {:induction false} AlignedRun(states: seq<System>, events: seq<Event>, b: string, end: real, i: nat)
    requires Run(states, events) && i < |states| && forall j | 0 <= j < |events| :: WindowEndsAt(states[j], events[j], b, end)
    ensures Aligned(states[i].world.ledger, b, end)
  {
    hide WindowEndsAt, Enabled, Next;
    if i == 0 {
    } else {
      AlignedRun(states, events, b, end, i - 1);
      RunKeeps(states, events, i - 1, i - 1);
      AlignedEvent(states[i - 1], events[i - 1], b, end);
    }
  }

  lemma AlignedEvent(s: System, e: Event, b: string, end: real)
    requires SystemOk(s) && Enabled(s, e) && Aligned(s.world.ledger, b, end) && WindowEndsAt(s, e, b, end)
    ensures Aligned(Next(s, e).world.ledger, b, end)
  {
    hide StoriesOk, OwnIds, KnownIds, Aligned, Step, RequestOk;
    match e
    case Act(id, c) => ValidRequest(s, id); AlignedStep(s.world, s.requests[id], s.limit, c, b, end);
    case ReservationExpires(_) => AlignedSubset(s.world.ledger, Next(s, e).world.ledger, b, end);
    case BudgetExpires(_) => AlignedSubset(s.world.ledger, Next(s, e).world.ledger, b, end);
    case Begin(_, _) =>
    case Elapse(_) =>
  }

  lemma ValidRequest(s: System, id: nat)
    requires RequestsOk(s) && id in s.requests
    ensures s.requests[id].reservation.Valid()
  {
    assert RequestOk(s.world, s.requests[id]);
  }

  lemma AlignedSubset(k: Ledger, k': Ledger, b: string, end: real)
    requires Aligned(k, b, end) && k'.reservations.Keys <= k.reservations.Keys && k'.budgets.Keys <= k.budgets.Keys
    requires forall id | id in k'.reservations :: k'.reservations[id] == k.reservations[id]
    requires forall o | o in k'.budgets :: k'.budgets[o] == k.budgets[o]
    ensures Aligned(k', b, end)
  {
  }

  lemma AlignedStep(s: World, q: Request, limit: nat, c: Choice, b: string, end: real)
    requires Aligned(s.ledger, b, end) && q.reservation.Valid()
    requires q.phase == Authorize && q.reservation.budget == b ==> s.now + c.window as real == end
    ensures Aligned(Step(s, q, limit, c).world.ledger, b, end)
  {
    hide Aligned, AuthorizeScript, CommitScript, ReleaseScript;
    AlignedScripts(s.ledger, q.reservation, b, end);
    if q.phase == Authorize {
      AlignedAuthorize(s.ledger, q.reservation, limit, c.window, s.now, c.ttl, b, end);
    }
  }

  lemma AlignedAuthorize(k: Ledger, r: Reservation, limit: nat, window: nat, now: real, ttl: nat, b: string, end: real)
    requires Aligned(k, b, end) && r.Valid() && (r.budget == b ==> now + window as real == end)
    ensures Aligned(AuthorizeScript(k, r, limit, window, now, ttl).ledger, b, end)
  {
  }

  lemma AlignedScripts(k: Ledger, r: Reservation, b: string, end: real)
    requires Aligned(k, b, end)
    ensures Aligned(CommitScript(k, r).ledger, b, end) && Aligned(ReleaseScript(k, r).ledger, b, end)
  {
  }

  // ---------------------------------------------------------------- two requests within a second

  function Asking(r: Reservation): Request {
    Request(r, Authorize, false)
  }

  function Granted(r: Reservation): Request {
    Request(r, Check, false)
  }

  function Open(k: Ledger, now: real): World {
    World(k, now, {}, [], {}, map[], map[])
  }

  function FirstOnly(r1: Reservation): Ledger {
    Ledger(map[r1.id := Stored(r1, 5.5)], map[r1.budget := Counter(r1.units, Some(5.5))])
  }

  function BothHeld(r1: Reservation, r2: Reservation): Ledger {
    Ledger(map[r1.id := Stored(r1, 5.5), r2.id := Stored(r2, 5.6)], map[r1.budget := Counter(r1.units + r2.units, Some(5.5))])
  }

  function Leads(s: System, e: Event, t: System): bool {
    Enabled(s, e) && t == Next(s, e)
  }

  const ASK_FIRST := Act(0, Choice(Delivered, 5, 0, true))
  const ASK_SECOND := Act(1, Choice(Delivered, 5, 5, true))

  lemma FirstGranted(r1: Reservation, q: Request, limit: nat)
    requires r1.Valid() && r1.units <= limit
    ensures Leads(System(Open(Ledger(map[], map[]), 0.5), map[0 := Asking(r1), 1 := q], limit), ASK_FIRST,
                  System(Open(FirstOnly(r1), 0.5), map[0 := Granted(r1), 1 := q], limit))
  {
    assert map[0 := Asking(r1), 1 := q][0 := Granted(r1)] == map[0 := Granted(r1), 1 := q];
  }

  lemma SecondGranted(r1: Reservation, r2: Reservation, q: Request, limit: nat)
    requires r1.Valid() && r2.Valid() && r1.id != r2.id && r1.budget == r2.budget && r1.units + r2.units <= limit
    ensures Leads(System(Open(FirstOnly(r1), 0.6), map[0 := q, 1 := Asking(r2)], limit), ASK_SECOND,
                  System(Open(BothHeld(r1, r2), 0.6), map[0 := q, 1 := Granted(r2)], limit))
  {
    assert map[0 := q, 1 := Asking(r2)][1 := Granted(r2)] == map[0 := q, 1 := Granted(r2)];
    assert FirstOnly(r1).reservations[r2.id := Stored(r2, 5.6)] == BothHeld(r1, r2).reservations;
  }

  function Later(r1: Reservation, r2: Reservation, budgets: map<string, Counter>, cleared: map<string, nat>): World {
    World(Ledger(map[r2.id := Stored(r2, 5.6)], budgets), 5.5, {}, [], {r1.id}, map[r1.budget := r1.units], cleared)
  }

  lemma FirstKeysExpire(r1: Reservation, r2: Reservation, requests: map<nat, Request>, limit: nat)
    requires r1.id != r2.id && r1.budget == r2.budget && r1.state == Authorized
    ensures Leads(System(Open(BothHeld(r1, r2), 5.5), requests, limit), ReservationExpires(r1.id),
                  System(Later(r1, r2, BothHeld(r1, r2).budgets, map[]), requests, limit))
    ensures Leads(System(Later(r1, r2, BothHeld(r1, r2).budgets, map[]), requests, limit), BudgetExpires(r1.budget),
                  System(Later(r1, r2, map[], map[r1.budget := r1.units + r2.units]), requests, limit))
  {
    assert BothHeld(r1, r2).reservations - {r1.id} == map[r2.id := Stored(r2, 5.6)];
    assert BothHeld(r1, r2).budgets - {r1.budget} == map[];
  }

  /** Cut windows are not aligned. Two requests of one budget within a second: the counter expires with
      the first reservation, the second lives on, and its release is refused. */
  lemma CutWindowsRefuseRelease(r1: Reservation, r2: Reservation, limit: nat)
    requires r1.Valid() && r2.Valid() && r1.state == Authorized && r2.state == Authorized
    requires r1.id != r2.id && r1.budget == r2.budget && r1.units + r2.units <= limit
    ensures exists states: seq<System>, events: seq<Event> ::
              && Run(states, events) && WindowsAreDaily(states, events, 6.0)
              && states[|events|].limit == limit && 1 in states[|events|].requests
              && states[|events|].requests[1].reservation == r2
              && ReleaseScript(states[|events|].world.ledger, r2).code == -1
  {
    hide Leads, Run, Initial, WindowsAreDaily, DailyWindow;
    var asking, requests := map[0 := Asking(r1), 1 := Asking(r2)], map[0 := Granted(r1), 1 := Granted(r2)];
    var half := map[0 := Granted(r1), 1 := Asking(r2)];
    BothBegin(r1, r2, limit);
    FirstGranted(r1, Asking(r2), limit);
    TimePasses(FirstOnly(r1), 0.5, 0.6, half, limit);
    SecondGranted(r1, r2, Granted(r1), limit);
    TimePasses(BothHeld(r1, r2), 0.6, 5.5, requests, limit);
    FirstKeysExpire(r1, r2, requests, limit);
    var empty := Open(Ledger(map[], map[]), 0.5);
    var s0, s1, s2 := System(empty, map[], limit), System(empty, map[0 := Asking(r1)], limit), System(empty, asking, limit);
    var s3, s4 := System(Open(FirstOnly(r1), 0.5), half, limit), System(Open(FirstOnly(r1), 0.6), half, limit);
    var s5, s6 := System(Open(BothHeld(r1, r2), 0.6), requests, limit), System(Open(BothHeld(r1, r2), 5.5), requests, limit);
    var s7 := System(Later(r1, r2, BothHeld(r1, r2).budgets, map[]), requests, limit);
    var s8 := System(Later(r1, r2, map[], map[r1.budget := r1.units + r2.units]), requests, limit);
    var states := [s0, s1, s2, s3, s4, s5, s6, s7, s8];
    var events := [Begin(0, r1), Begin(1, r2), ASK_FIRST, Elapse(0.6), ASK_SECOND, Elapse(5.5),
                   ReservationExpires(r1.id), BudgetExpires(r1.budget)];
    CutRun(states, events);
    assert states[|events|] == s8;
  }

  lemma BothBegin(r1: Reservation, r2: Reservation, limit: nat)
    requires r1.Valid() && r2.Valid() && r1.state == Authorized && r2.state == Authorized && r1.id != r2.id
    ensures var empty := Open(Ledger(map[], map[]), 0.5); var s0 := System(empty, map[], limit);
            && Initial(s0)
            && Leads(s0, Begin(0, r1), System(empty, map[0 := Asking(r1)], limit))
            && Leads(System(empty, map[0 := Asking(r1)], limit), Begin(1, r2),
                     System(empty, map[0 := Asking(r1), 1 := Asking(r2)], limit))
  {
    assert map[][0 := Asking(r1)] == map[0 := Asking(r1)];
    assert map[0 := Asking(r1)][1 := Asking(r2)] == map[0 := Asking(r1), 1 := Asking(r2)];
  }

  lemma TimePasses(k: Ledger, now: real, later: real, requests: map<nat, Request>, limit: nat)
    requires now <= later
    ensures Leads(System(Open(k, now), requests, limit), Elapse(later), System(Open(k, later), requests, limit))
  {
  }

  /** Joins the steps. */
  lemma CutRun(states: seq<System>, events: seq<Event>)
    requires |states| == 9 && |events| == 8 && Initial(states[0])
    requires Leads(states[0], events[0], states[1]) && Leads(states[1], events[1], states[2])
    requires Leads(states[2], events[2], states[3]) && Leads(states[3], events[3], states[4])
    requires Leads(states[4], events[4], states[5]) && Leads(states[5], events[5], states[6])
    requires Leads(states[6], events[6], states[7]) && Leads(states[7], events[7], states[8])
    requires !events[0].Act? && !events[1].Act? && events[2] == ASK_FIRST && states[2].world.now == 0.5 && 0 in states[2].requests
    requires !events[3].Act? && events[4] == ASK_SECOND && states[4].world.now == 0.6 && 1 in states[4].requests
    requires !events[5].Act? && !events[6].Act? && !events[7].Act?
    ensures Run(states, events) && WindowsAreDaily(states, events, 6.0)
  {
    hide Enabled, Next;
    forall i | 0 <= i < |events| ensures Enabled(states[i], events[i]) && states[i + 1] == Next(states[i], events[i]) {
      assert i == 0 || i == 1 || i == 2 || i == 3 || i == 4 || i == 5 || i == 6 || i == 7;
      assert Leads(states[i], events[i], states[i + 1]);
    }
  }

  const ASK_LATE := Act(1, Choice(Delivered, 1, 0, true))

  /** A request in the last second of the day's counter is refused although the budget has room for it. */
  lemma LastSecondRefusesAuthorize(r1: Reservation, r2: Reservation, limit: nat)
    requires r1.Valid() && r2.Valid() && r1.state == Authorized && r2.state == Authorized
    requires r1.id != r2.id && r1.budget == r2.budget && r1.units + r2.units <= limit
    ensures exists states: seq<System>, events: seq<Event> ::
              && Run(states, events) && WindowsAreDaily(states, events, 6.0) && |events| == 5 && states[4].limit == limit
              && 1 in states[4].requests && states[4].requests[1] == Asking(r2) && events[4] == ASK_LATE
              && AuthorizeScript(states[4].world.ledger, r2, limit, 1, states[4].world.now, 0).code == -2
              && states[5].world == states[4].world && states[5].requests[1].phase == ReleaseIndeterminate
  {
    hide Leads, Run, Initial, WindowsAreDaily, DailyWindow;
    var asking, half := map[0 := Asking(r1), 1 := Asking(r2)], map[0 := Granted(r1), 1 := Asking(r2)];
    BothBegin(r1, r2, limit);
    FirstGranted(r1, Asking(r2), limit);
    TimePasses(FirstOnly(r1), 0.5, 5.25, half, limit);
    SecondRefused(r1, r2, Granted(r1), limit);
    var empty := Open(Ledger(map[], map[]), 0.5);
    var s0, s1, s2 := System(empty, map[], limit), System(empty, map[0 := Asking(r1)], limit), System(empty, asking, limit);
    var s3, s4 := System(Open(FirstOnly(r1), 0.5), half, limit), System(Open(FirstOnly(r1), 5.25), half, limit);
    var s5 := s4.(requests := map[0 := Granted(r1), 1 := Request(r2, ReleaseIndeterminate, false)]);
    var states := [s0, s1, s2, s3, s4, s5];
    var events := [Begin(0, r1), Begin(1, r2), ASK_FIRST, Elapse(5.25), ASK_LATE];
    LateRun(states, events);
    assert states[4] == s4 && states[5] == s5;
  }

  lemma SecondRefused(r1: Reservation, r2: Reservation, q: Request, limit: nat)
    requires r1.Valid() && r2.Valid() && r1.id != r2.id && r1.budget == r2.budget && r1.units + r2.units <= limit
    ensures AuthorizeScript(FirstOnly(r1), r2, limit, 1, 5.25, 0).code == -2
    ensures Leads(System(Open(FirstOnly(r1), 5.25), map[0 := q, 1 := Asking(r2)], limit), ASK_LATE,
                  System(Open(FirstOnly(r1), 5.25), map[0 := q, 1 := Request(r2, ReleaseIndeterminate, false)], limit))
  {
    assert map[0 := q, 1 := Asking(r2)][1 := Request(r2, ReleaseIndeterminate, false)]
           == map[0 := q, 1 := Request(r2, ReleaseIndeterminate, false)];
  }

  lemma LateRun(states: seq<System>, events: seq<Event>)
    requires |states| == 6 && |events| == 5 && Initial(states[0])
    requires Leads(states[0], events[0], states[1]) && Leads(states[1], events[1], states[2])
    requires Leads(states[2], events[2], states[3]) && Leads(states[3], events[3], states[4])
    requires Leads(states[4], events[4], states[5])
    requires !events[0].Act? && !events[1].Act? && events[2] == ASK_FIRST && states[2].world.now == 0.5 && 0 in states[2].requests
    requires !events[3].Act? && events[4] == ASK_LATE && states[4].world.now == 5.25 && 1 in states[4].requests
    ensures Run(states, events) && WindowsAreDaily(states, events, 6.0)
  {
    hide Enabled, Next;
    forall i | 0 <= i < |events| ensures Enabled(states[i], events[i]) && states[i + 1] == Next(states[i], events[i]) {
      assert i == 0 || i == 1 || i == 2 || i == 3 || i == 4;
      assert Leads(states[i], events[i], states[i + 1]);
    }
  }

  /** Every authorization asks for the window that ends at `midnight`, cut to whole seconds. */
  ghost predicate WindowsAreDaily(states: seq<System>, events: seq<Event>, midnight: real) {
    |states| == |events| + 1 &&
    forall j | 0 <= j < |events| && events[j].Act? ::
      events[j].id in states[j].requests && states[j].requests[events[j].id].phase == Authorize ==>
        states[j].world.now < midnight && events[j].choice.window == DailyWindow(midnight, states[j].world.now)
  }

  /** COMMITTED and RELEASED are final: a reservation is refunded at most once, never after its
      commit, and never committed after its refund. */
  lemma TerminalStatesFinal(states: seq<System>, events: seq<Event>, i: nat, j: nat, id: string)
    requires Run(states, events) && i <= j < |states|
    ensures Distinct(states[j].world.refunded) && !(id in states[j].world.committed && id in states[j].world.refunded)
    ensures id in states[i].world.committed && id !in states[j].world.vanished ==>
              id in states[j].world.ledger.reservations && states[j].world.ledger.reservations[id].reservation.state == Committed
    ensures id in states[i].world.refunded && id !in states[j].world.vanished ==>
              id in states[j].world.ledger.reservations && states[j].world.ledger.reservations[id].reservation.state == Released
  {
    RunKeeps(states, events, i, j);
    assert StoryOf(states[i].world, id) && StoryOf(states[j].world, id);
  }

  /** The commit command of request `id` took effect in step `j`. */
  ghost predicate CommitApplied(states: seq<System>, events: seq<Event>, j: nat, r: Reservation) {
    && j < |events| < |states| && events[j].Act? && events[j].id in states[j].requests
    && (var q := states[j].requests[events[j].id];
        && q.reservation == r && q.phase == Commit && events[j].choice.fate != Dropped
        && CommitScript(states[j].world.ledger, r).code == 1)
  }

  /** Commit before pay: when a request is about to make a paid call, the commit of its own
      reservation took effect in an earlier step. */
  lemma CommitBeforePay(states: seq<System>, events: seq<Event>, i: nat, id: nat)
    requires Run(states, events) && i < |states| && id in states[i].requests && Paid(states[i].requests[id].phase)
    ensures exists j :: 0 <= j < i && CommitApplied(states, events, j, states[i].requests[id].reservation)
  {
    RunKeeps(states, events, i, i);
    assert RequestOk(states[i].world, states[i].requests[id]);
    CommittedHasStep(states, events, i, id);
  }

  lemma {:induction false} CommittedHasStep(states: seq<System>, events: seq<Event>, i: nat, id: nat)
    requires Run(states, events) && i < |states| && id in states[i].requests
    requires states[i].requests[id].reservation.id in states[i].world.committed
    ensures exists j :: 0 <= j < i && CommitApplied(states, events, j, states[i].requests[id].reservation)
  {
    hide SystemOk, Next;
    CommitsNothingAtFirst(states, events, i, id);
    var s, e := states[i - 1], events[i - 1];
    RunKeeps(states, events, i - 1, i - 1);
    assert Enabled(s, e) && states[i] == Next(s, e);
    CommitStep(s, e, id);
    if states[i].requests[id].reservation.id in s.world.committed {
      CommittedHasStep(states, events, i - 1, id);
    } else {
      assert CommitApplied(states, events, i - 1, s.requests[id].reservation);
    }
  }

  lemma CommitsNothingAtFirst(states: seq<System>, events: seq<Event>, i: nat, id: nat)
    requires Run(states, events) && i < |states| && id in states[i].requests
    requires states[i].requests[id].reservation.id in states[i].world.committed
    ensures i > 0
  {
  }

  /** A committed reservation was committed before this step, or by its own request in this step. */
  lemma CommitStep(s: System, e: Event, id: nat)
    requires SystemOk(s) && Enabled(s, e) && id in Next(s, e).requests
    requires Next(s, e).requests[id].reservation.id in Next(s, e).world.committed
    ensures id in s.requests && s.requests[id].reservation == Next(s, e).requests[id].reservation
    ensures s.requests[id].reservation.id in s.world.committed
              || (e.Act? && e.id == id && s.requests[id].phase == Commit && e.choice.fate != Dropped
                  && CommitScript(s.world.ledger, s.requests[id].reservation).code == 1)
  {
    hide StoriesOk, RequestsOk, Distinct;
    if Next(s, e).requests[id].reservation.id in s.world.committed {
      UnknownNotCommitted(s, Next(s, e).requests[id].reservation.id);
    }
  }

  lemma UnknownNotCommitted(s: System, id: string)
    requires SystemOk(s) && id in s.world.committed
    ensures exists q :: q in s.requests && s.requests[q].reservation.id == id
  {
    assert StoryOf(s.world, id);
  }

  /** Once a request's release is answered its reservation is charged exactly when its commit was
      applied, as long as its key has not vanished. */
  lemma ChargedIffCommitted(states: seq<System>, events: seq<Event>, i: nat, id: nat)
    requires Run(states, events) && i < |states| && id in states[i].requests
    requires states[i].requests[id].answered && states[i].requests[id].reservation.id !in states[i].world.vanished
    ensures var r := states[i].requests[id].reservation; var m := states[i].world.ledger.reservations;
            (r.id in m && m[r.id].reservation.Charge(r.budget) == r.units) <==> r.id in states[i].world.committed
  {
    RunKeeps(states, events, i, i);
    var q := states[i].requests[id];
    assert RequestOk(states[i].world, q) && StoryOf(states[i].world, q.reservation.id);
  }

  ghost predicate Admitted(s: World, id: string) {
    id in s.ledger.reservations || id in s.vanished
  }

  /** In step `j` request `id` issues the release of its reservation. */
  ghost predicate ReleaseIssued(states: seq<System>, events: seq<Event>, j: nat, id: nat) {
    && j < |events| < |states| && events[j].Act? && events[j].id == id && id in states[j].requests
    && (states[j].requests[id].phase.Release? || states[j].requests[id].phase.ReleaseIndeterminate?)
  }

  /** The bracket is closed: a request that ended either was never admitted to the ledger or issued
      the release of its reservation, whatever failed or was cancelled in between. */
  lemma {:induction false} AdmittedReleases(states: seq<System>, events: seq<Event>, i: nat, id: nat)
    requires Run(states, events) && i < |states| && id in states[i].requests && states[i].requests[id].phase == Done
    requires Admitted(states[i].world, states[i].requests[id].reservation.id)
    ensures exists j :: 0 <= j < i && ReleaseIssued(states, events, j, id)
  {
    hide SystemOk;
    assert i > 0;
    var s, e := states[i - 1], events[i - 1];
    RunKeeps(states, events, i - 1, i - 1);
    assert Enabled(s, e) && states[i] == Next(s, e);
    if ReleaseIssued(states, events, i - 1, id) {
    } else {
      DoneBefore(s, e, id);
      AdmittedReleases(states, events, i - 1, id);
    }
  }

  lemma DoneBefore(s: System, e: Event, id: nat)
    requires SystemOk(s) && Enabled(s, e) && id in Next(s, e).requests && Next(s, e).requests[id].phase == Done
    requires Admitted(Next(s, e).world, Next(s, e).requests[id].reservation.id)
    requires !(e.Act? && e.id == id && (s.requests[id].phase.Release? || s.requests[id].phase.ReleaseIndeterminate?))
    ensures id in s.requests && s.requests[id].phase == Done && Admitted(s.world, s.requests[id].reservation.id)
  {
    hide StoriesOk, Distinct, KnownIds, Same, Step, Evolves;
    if e.Act? {
      assert RequestOk(s.world, s.requests[e.id]);
      StepMovesOne(s.world, s.requests[e.id], s.limit, e.choice);
      if e.id == id {
        DoneStays(s.world, s.requests[id], s.limit, e.choice);
      }
    }
  }

  lemma DoneStays(s: World, q: Request, limit: nat, c: Choice)
    requires RequestOk(s, q) && !q.phase.Release? && !q.phase.ReleaseIndeterminate?
    requires Step(s, q, limit, c).request.phase == Done && Admitted(Step(s, q, limit, c).world, q.reservation.id)
    ensures q.phase == Done && Admitted(s, q.reservation.id)
  {
  }
}
