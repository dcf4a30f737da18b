/** Paid-query reservations and their daily budget counters, and the request bracket that reserves,
    commits before paying, and releases.

    A counter belongs to one budget digest. A reservation's key lives for the window its request asked
    for; a counter's key for the window of the request that found it empty. */
module Budget {
  import opened Domain

  datatype ReservationState = Authorized | Committed | Released

  datatype Reservation = Reservation(id: string, budget: string, principal: string, units: nat, state: ReservationState) {
    predicate Valid() {
      units > 0
    }

    function WithState(next: ReservationState): Reservation {
      this.(state := next)
    }

    /** The units this reservation charges to budget `b`. */
    function Charge(b: string): nat {
      if budget == b && state != Released then units else 0
    }
  }

  datatype Stored = Stored(reservation: Reservation, expires: real)

  /** Without an expiry a counter lives forever; no run has such a counter. */
  datatype Counter = Counter(units: nat, expires: Option<real>)

  datatype Ledger = Ledger(reservations: map<string, Stored>, budgets: map<string, Counter>) {
    function Used(b: string): nat {
      if b in budgets then budgets[b].units else 0
    }

    predicate Stores(r: Reservation) {
      r.id in reservations && reservations[r.id].reservation == r
    }

    /** The reservation's record is replaced and its expiry kept. */
    function Keep(r: Reservation): map<string, Stored>
      requires r.id in reservations
    {
      reservations[r.id := reservations[r.id].(reservation := r)]
    }
  }

  datatype Reply = Reply(ledger: Ledger, code: int)

  /** `ttl` is what the TTL command answers for a counter that has an expiry. */
  function AuthorizeScript(k: Ledger, r: Reservation, limit: nat, window: nat, now: real, ttl: nat): Reply {
    var current := k.Used(r.budget);
    var expires := now + window as real;
    if r.id in k.reservations then Reply(k, 0)
    else if current > 0 && (k.budgets[r.budget].expires.None? || ttl < 1) then Reply(k, -2)
    else if current + r.units > limit then Reply(k, -1)
    else
      var kept := if current == 0 then Some(expires) else k.budgets[r.budget].expires;
      Reply(Ledger(k.reservations[r.id := Stored(r, expires)], k.budgets[r.budget := Counter(current + r.units, kept)]),
            current + r.units)
  }

  function CommitScript(k: Ledger, r: Reservation): Reply {
    if !k.Stores(r) then Reply(k, 0)
    else Reply(k.(reservations := k.Keep(r.WithState(Committed))), 1)
  }

  function ReleaseScript(k: Ledger, r: Reservation): Reply {
    var current := k.Used(r.budget);
    if !k.Stores(r) then Reply(k, 0)
    else if current < r.units then Reply(k, -1)
    else
      var remaining := current - r.units;
      Reply(Ledger(k.Keep(r.WithState(Released)),
                   if remaining == 0 then k.budgets - {r.budget}
                   else k.budgets[r.budget := k.budgets[r.budget].(units := remaining)]),
            1)
  }

  /** A control-plane call: an argument error, an unusable reply, or an answer. */
  datatype Outcome = Invalid | Unavailable | Answer(done: bool)

  class ReservationControl {
    var reservations: map<string, Stored>
    var budgets: map<string, Counter>

    constructor ()
      ensures State() == Ledger(map[], map[])
    {
      reservations, budgets := map[], map[];
    }

    function State(): Ledger
      reads this
    {
      Ledger(reservations, budgets)
    }

    method Authorize(r: Reservation, limit: nat, window: nat, now: real, ttl: nat) returns (outcome: Outcome)
      requires r.Valid()
      modifies this
      ensures r.state != Authorized || limit == 0 || window == 0 ==> outcome == Invalid && State() == old(State())
      ensures r.state == Authorized && window > 0 && 0 < limit < r.units ==> outcome == Answer(false) && State() == old(State())
      ensures r.state == Authorized && window > 0 && r.units <= limit ==>
                var reply := AuthorizeScript(old(State()), r, limit, window, now, ttl);
                && State() == reply.ledger
                && outcome == if reply.code == -2 then Unavailable else Answer(reply.code >= 1)
    {
      if r.state != Authorized || limit == 0 || window == 0 {
        return Invalid;
      }
      if r.units > limit || r.id in reservations {
        return Answer(false);
      }
      var current := if r.budget in budgets then budgets[r.budget].units else 0;
      if current > 0 && (budgets[r.budget].expires.None? || ttl < 1) {
        return Unavailable;
      }
      if current + r.units > limit {
        return Answer(false);
      }
      reservations := reservations[r.id := Stored(r, now + window as real)];
      var kept := if current == 0 then Some(now + window as real) else budgets[r.budget].expires;
      budgets := budgets[r.budget := Counter(current + r.units, kept)];
      return Answer(true);
    }

    method Commit(r: Reservation) returns (outcome: Outcome)
      modifies this
      ensures r.state != Authorized ==> outcome == Invalid && State() == old(State())
      ensures r.state == Authorized ==>
                var reply := CommitScript(old(State()), r); State() == reply.ledger && outcome == Answer(reply.code == 1)
    {
      if r.state != Authorized {
        return Invalid;
      }
      if !(r.id in reservations && reservations[r.id].reservation == r) {
        return Answer(false);
      }
      reservations := reservations[r.id := reservations[r.id].(reservation := r.WithState(Committed))];
      return Answer(true);
    }

    method Release(r: Reservation) returns (outcome: Outcome)
      modifies this
      ensures r.state != Authorized ==> outcome == Invalid && State() == old(State())
      ensures r.state == Authorized ==>
                var reply := ReleaseScript(old(State()), r);
                && State() == reply.ledger
                && outcome == if reply.code == -1 then Unavailable else Answer(reply.code == 1)
    {
      if r.state != Authorized {
        return Invalid;
      }
      if !(r.id in reservations && reservations[r.id].reservation == r) {
        return Answer(false);
      }
      var current := if r.budget in budgets then budgets[r.budget].units else 0;
      if current < r.units {
        return Unavailable;
      }
      reservations := reservations[r.id := reservations[r.id].(reservation := r.WithState(Released))];
      if current == r.units {
        budgets := budgets - {r.budget};
      } else {
        budgets := budgets[r.budget := budgets[r.budget].(units := current - r.units)];
      }
      return Answer(true);
    }
  }

  // ---------------------------------------------------------------- the request bracket

  datatype Phase =
    | Authorize
    | ReleaseIndeterminate
    | Check
    | Commit
    | Embed
    | Generate
    | Release
    | Done

  /** `answered` says that the release command was answered, with a usable reply. */
  datatype Request = Request(reservation: Reservation, phase: Phase, answered: bool)

  predicate Paid(p: Phase) {
    p.Embed? || p.Generate?
  }

  /** The environment's part of a step: the command's fate, the window computed for an authorization,
      the TTL answer, and whether the request goes on after the step or is refused, fails or is
      cancelled. */
  datatype Choice = Choice(fate: Fate, window: nat, ttl: nat, proceed: bool)

  /** The seconds to the next midnight, cut to whole seconds and at least one. */
  function DailyWindow(midnight: real, now: real): (window: nat)
    ensures midnight - now < 1.0 ==> window == 1
    ensures midnight - now >= 1.0 ==> now + window as real <= midnight < now + window as real + 1.0
  {
    var whole := (midnight - now).Floor;
    if whole < 1 then 1 else whole
  }

  /** The shared ledger, the clock, and the history no step reads: reservations whose commit was
      applied, those refunded in order, those whose key expired, the units charged by them when it
      did, and the units counters held when their keys expired. */
  datatype World = World(
    ledger: Ledger, now: real, committed: set<string>, refunded: seq<string>, vanished: set<string>,
    lost: map<string, nat>, cleared: map<string, nat>)
  {
    function Lost(b: string): nat {
      if b in lost then lost[b] else 0
    }

    function Cleared(b: string): nat {
      if b in cleared then cleared[b] else 0
    }

    /** An expired key is gone before the next command. */
    predicate Overdue(id: string) {
      id in ledger.reservations && ledger.reservations[id].expires <= now
    }

    predicate BudgetOverdue(b: string) {
      b in ledger.budgets && ledger.budgets[b].expires.Some? && ledger.budgets[b].expires.value <= now
    }

    predicate UpToDate() {
      && (forall id | id in ledger.reservations :: !Overdue(id))
      && (forall b | b in ledger.budgets :: !BudgetOverdue(b))
    }

    /** TTL answers within one second of the remaining time. */
    predicate Remaining(b: string, ttl: nat) {
      b in ledger.budgets && ledger.budgets[b].expires.Some? ==>
        -1.0 < ttl as real - (ledger.budgets[b].expires.value - now) < 1.0
    }
  }

  datatype System = System(world: World, requests: map<nat, Request>, limit: nat)

  datatype Event =
    | Begin(id: nat, reservation: Reservation)
    | Act(id: nat, choice: Choice)
    | Elapse(now: real)
    | ReservationExpires(key: string)
    | BudgetExpires(budget: string)

  datatype Effect = Effect(world: World, request: Request)

  function After(s: World, fate: Fate, reply: Reply): World {
    if fate == Dropped then s else s.(ledger := reply.ledger)
  }

  function ReleaseEffect(s: World, r: Reservation, fate: Fate): World {
    var reply := ReleaseScript(s.ledger, r);
    var t := After(s, fate, reply);
    if fate != Dropped && reply.code == 1 then t.(refunded := s.refunded + [r.id]) else t
  }

  function CommitEffect(s: World, r: Reservation, fate: Fate): World {
    var reply := CommitScript(s.ledger, r);
    var t := After(s, fate, reply);
    if fate != Dropped && reply.code == 1 then t.(committed := s.committed + {r.id}) else t
  }

  function Step(s: World, q: Request, limit: nat, c: Choice): Effect {
    var r := q.reservation;
    match q.phase
    case Authorize =>
      var reply := AuthorizeScript(s.ledger, r, limit, c.window, s.now, c.ttl);
      if r.units > limit then Effect(s, q.(phase := Done))
      else Effect(After(s, c.fate, reply),
                  q.(phase := if c.fate != Delivered || reply.code == -2 then ReleaseIndeterminate
                              else if reply.code >= 1 then Check else Done))
    case ReleaseIndeterminate =>
      Effect(ReleaseEffect(s, r, c.fate),
             q.(phase := Done, answered := c.fate == Delivered && ReleaseScript(s.ledger, r).code != -1))
    case Check => Effect(s, q.(phase := if c.proceed then Commit else Release))
    case Commit =>
      Effect(CommitEffect(s, r, c.fate),
             q.(phase := if c.fate == Delivered && CommitScript(s.ledger, r).code == 1 then Embed else Release))
    case Embed => Effect(s, q.(phase := if c.proceed then Generate else Release))
    case Generate => Effect(s, q.(phase := Release))
    case Release =>
      Effect(ReleaseEffect(s, r, c.fate),
             q.(phase := Done, answered := c.fate == Delivered && ReleaseScript(s.ledger, r).code != -1))
    case Done => Effect(s, q)
  }

  predicate Enabled(s: System, e: Event) {
    match e
    case Begin(id, r) =>
      && id !in s.requests && r.Valid() && r.state == Authorized
      && (forall other | other in s.requests :: s.requests[other].reservation.id != r.id)
    case Act(id, c) =>
      id in s.requests && s.world.UpToDate() && c.window > 0 && s.world.Remaining(s.requests[id].reservation.budget, c.ttl)
    case Elapse(now) => s.world.now <= now
    case ReservationExpires(id) => s.world.Overdue(id)
    case BudgetExpires(b) => s.world.BudgetOverdue(b) && forall id | id in s.world.ledger.reservations :: !s.world.Overdue(id)
  }

  function Next(s: System, e: Event): System
    requires Enabled(s, e)
  {
    match e
    case Begin(id, r) => s.(requests := s.requests[id := Request(r, Authorize, false)])
    case Act(id, c) =>
      var effect := Step(s.world, s.requests[id], s.limit, c);
      s.(world := effect.world, requests := s.requests[id := effect.request])
    case Elapse(now) => s.(world := s.world.(now := now))
    case ReservationExpires(id) => s.(world := Vanish(s.world, id))
    case BudgetExpires(b) => s.(world := Clear(s.world, b))
  }

  function Vanish(s: World, id: string): World
    requires id in s.ledger.reservations
  {
    var r := s.ledger.reservations[id].reservation;
    s.(ledger := s.ledger.(reservations := s.ledger.reservations - {id}),
       vanished := s.vanished + {id},
       lost := s.lost[r.budget := s.Lost(r.budget) + r.Charge(r.budget)])
  }

  function Clear(s: World, b: string): World {
    s.(ledger := s.ledger.(budgets := s.ledger.budgets - {b}),
       cleared := s.cleared[b := s.Cleared(b) + s.ledger.Used(b)])
  }

  predicate Initial(s: System) {
    s.world == World(Ledger(map[], map[]), s.world.now, {}, [], {}, map[], map[]) && s.requests == map[]
  }

  predicate Run(states: seq<System>, events: seq<Event>) {
    && |states| == |events| + 1
    && Initial(states[0])
    && forall i | 0 <= i < |events| :: Enabled(states[i], events[i]) && states[i + 1] == Next(states[i], events[i])
  }
}
