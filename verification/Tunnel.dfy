// One inbound request's attempt chain: which routes are tried, what is reported
// about them, and who holds them, with any number of other sessions around it.
module Tunnel {
  import opened Common
  import opened Routes
  import opened RoutePool
  import opened RouteRuns
  import opened Generations

  // ---- Holds over whole runs

  // What every agent holds.
  type Holdings = map<Agent, multiset<Proxy>>

  ghost function Held(held: Holdings, a: Agent): multiset<Proxy> {
    if a in held then held[a] else multiset{}
  }

  ghost function HoldsPerAgent(held: Holdings, p: Proxy): map<Agent, int> {
    map a | a in held :: held[a][p]
  }

  /** The outstanding holds on one route, over all agents. */
  ghost function HoldsOn(held: Holdings, p: Proxy): int {
    Total(HoldsPerAgent(held, p))
  }

  lemma HoldsChange(held: Holdings, a: Agent, mine: multiset<Proxy>, p: Proxy)
    ensures HoldsOn(held[a := mine], p) == HoldsOn(held, p) + mine[p] - Held(held, a)[p]
  {
    TotalUpdate(HoldsPerAgent(held, p), a, mine[p]);
    assert HoldsPerAgent(held[a := mine], p) == HoldsPerAgent(held, p)[a := mine[p]];
  }

  /** Every route's in-flight count is the number of holds on it. */
  ghost predicate HoldsMatch(w: World, held: Holdings) {
    forall p :: p in w.routes ==> w.routes[p].inFlight == HoldsOn(held, p)
  }

  ghost predicate HoldsKnown(w: World, held: Holdings) {
    forall a, p :: a in held && p in held[a] ==> p in w.routes
  }

  /** What the agent of a step holds after it: a pick adds a hold, a release drops one. */
  ghost function MineAfter(ev: Event, mine: multiset<Proxy>): multiset<Proxy> {
    if ev.Picked? then mine + multiset{ev.r}
    else if ev.Local? && ev.change.Release? then mine - multiset{ev.p}
    else mine
  }

  ghost function HeldAfter(step: Step, held: Holdings): Holdings {
    held[step.agent := MineAfter(step.ev, Held(held, step.agent))]
  }

  /** An agent releases only what it holds itself. */
  ghost predicate Allowed(step: Step, held: Holdings) {
    step.ev.Local? && step.ev.change.Release? ==> step.ev.p in Held(held, step.agent)
  }

  ghost predicate Disciplined(run: seq<Step>, held: Holdings) {
    run == [] || (Allowed(run[0], held) && Disciplined(run[1..], HeldAfter(run[0], held)))
  }

  ghost function HeldAtEnd(run: seq<Step>, held: Holdings): Holdings {
    if run == [] then held else HeldAtEnd(run[1..], HeldAfter(run[0], held))
  }

  /** In-flight counts are the outstanding holds, over every run in which every
      session releases only what it holds. */
  lemma {:induction false} HoldsStayMatched(w: World, run: seq<Step>, w': World, held: Holdings)
    requires w.Valid() && Reaches(w, Events(run), w') && Disciplined(run, held)
    requires HoldsMatch(w, held) && HoldsKnown(w, held)
    ensures HoldsMatch(w', HeldAtEnd(run, held))
    decreases |run|
  {
    if run != [] {
      assert Events(run)[1..] == Events(run[1..]);
      HoldsStep(w, run[0], held);
      HoldsStayMatched(Apply(w, run[0].ev), run[1..], w', HeldAfter(run[0], held));
    }
  }

  lemma HoldsStep(w: World, step: Step, held: Holdings)
    requires w.Valid() && Enabled(w, step.ev) && HoldsMatch(w, held) && HoldsKnown(w, held) && Allowed(step, held)
    ensures HoldsMatch(Apply(w, step.ev), HeldAfter(step, held)) && HoldsKnown(Apply(w, step.ev), HeldAfter(step, held))
  {
    RoutesAfterStep(w, step.ev);
    forall p | p in Apply(w, step.ev).routes
      ensures Apply(w, step.ev).routes[p].inFlight == HoldsOn(HeldAfter(step, held), p)
    {
      HoldsOnStep(w, step, held, p);
    }
  }

  lemma HoldsOnStep(w: World, step: Step, held: Holdings, p: Proxy)
    requires w.Valid() && Enabled(w, step.ev) && p in Apply(w, step.ev).routes && Allowed(step, held)
    requires HoldsKnown(w, held) && (p in w.routes ==> w.routes[p].inFlight == HoldsOn(held, p))
    ensures Apply(w, step.ev).routes[p].inFlight == HoldsOn(HeldAfter(step, held), p)
  {
    RoutesAfterStep(w, step.ev);
    HoldsChange(held, step.agent, MineAfter(step.ev, Held(held, step.agent)), p);
    if p in w.routes {
      HoldStep(w, step, held, p);
    } else {
      NobodyHolds(held, p);
    }
  }

  lemma HoldStep(w: World, step: Step, held: Holdings, p: Proxy)
    requires w.Valid() && Enabled(w, step.ev) && p in w.routes && Allowed(step, held)
    requires w.routes[p].inFlight == HoldsOn(held, p)
    ensures var mine := Held(held, step.agent);
      RouteAfter(w, step.ev, p).inFlight == HoldsOn(held, p) + MineAfter(step.ev, mine)[p] - mine[p]
  {
    HoldsCount(held, step.agent, p);
  }

  /** The holds on a route include those of each agent. */
  lemma HoldsCount(held: Holdings, a: Agent, p: Proxy)
    ensures 0 <= Held(held, a)[p] <= HoldsOn(held, p)
  {
    var mine := map b: Agent | b in held && b == a :: held[b][p];
    TotalMonotone(mine, HoldsPerAgent(held, p));
    if a in held {
      TotalSplit(mine, a);
      assert mine - {a} == map[];
    } else {
      assert mine == map[];
    }
  }

  lemma NobodyHolds(held: Holdings, p: Proxy)
    requires forall a :: a in held ==> p !in held[a]
    ensures HoldsOn(held, p) == 0
  {
    var none: map<Agent, int> := map[];
    TotalZeroes(none, HoldsPerAgent(held, p));
  }

  /** Releasing what one holds always finds a hold to drop: the guard against
      releasing twice never decides anything. */
  lemma ReleaseNeverClamped(w: World, p: Proxy, held: Holdings, me: Agent)
    requires w.Valid() && p in w.routes && HoldsMatch(w, held) && p in Held(held, me)
    ensures w.routes[p].inFlight > 0 && w.routes[p].Released().inFlight == w.routes[p].inFlight - 1
  {
    HoldsCount(held, me, p);
  }

  /** Once no agent holds anything, no route is in flight: nothing leaks. */
  lemma NothingLeaks(w: World, held: Holdings, p: Proxy)
    requires HoldsMatch(w, held) && p in w.routes && forall a :: a in held ==> held[a] == multiset{}
    ensures w.routes[p].inFlight == 0
  {
    NobodyHolds(held, p);
  }

  // ---- Which routes a request may use

  datatype Family = Mixed | OnlyV4 | OnlyV6
  {
    /** A mixed request is not constrained at all. */
    predicate Allows(p: Proxy) {
      match this
      case OnlyV4 => p.kind == V4
      case OnlyV6 => p.kind == V6
      case Mixed => true
    }

    /** Intersects with a filter; no filter and no constraint stay no filter. */
    function Narrow(allow: Option<Proxy -> bool>): Option<Proxy -> bool> {
      if Mixed? then allow
      else if allow.None? then Some((p: Proxy) => Allows(p))
      else Some((p: Proxy) => Allows(p) && allow.value(p))
    }
  }

  /** The routing policy's candidates, the listener's kind, the request's family. */
  function Composed(candidates: Option<set<Proxy>>, listener: Option<Kind>, family: Family): Option<Proxy -> bool> {
    family.Narrow(AmongCandidates(candidates, OfKind(listener)))
  }

  function OfKind(listener: Option<Kind>): Option<Proxy -> bool> {
    if listener.None? then None else Some((p: Proxy) => p.kind == listener.value)
  }

  function AmongCandidates(candidates: Option<set<Proxy>>, allow: Option<Proxy -> bool>): Option<Proxy -> bool> {
    if candidates.None? then allow else Some((p: Proxy) => p in candidates.value && Admits(allow, p))
  }

  predicate Admits(allow: Option<Proxy -> bool>, p: Proxy) {
    allow.None? || allow.value(p)
  }

  /** The composed filter is the intersection of the three constraints, and
      there is no filter at all exactly when none of them constrains. */
  lemma ComposedIsIntersection(candidates: Option<set<Proxy>>, listener: Option<Kind>, family: Family, p: Proxy)
    ensures Admits(Composed(candidates, listener, family), p) <==>
      (candidates.Some? ==> p in candidates.value) && (listener.Some? ==> p.kind == listener.value) &&
      (family.OnlyV4? ==> p.kind == V4) && (family.OnlyV6? ==> p.kind == V6)
    ensures Composed(candidates, listener, family).None? <==> candidates.None? && listener.None? && family.Mixed?
  {
    var own := OfKind(listener);
    var routed := AmongCandidates(candidates, own);
    assert Admits(own, p) <==> (listener.Some? ==> p.kind == listener.value);
    assert Admits(routed, p) <==> (candidates.Some? ==> p in candidates.value) && Admits(own, p);
    assert Admits(family.Narrow(routed), p) <==> family.Allows(p) && Admits(routed, p);
  }

  // ---- One session among others

  // How dialling one route ended.
  datatype Dial = Connected | ProxyDown | TargetRefused | HandshakeBroken | AuthRejected | SetupFailed
  {
    predicate Retryable() {
      ProxyDown? || TargetRefused? || HandshakeBroken? || AuthRejected?
    }
  }

  // The holds of all agents.
  class Ledger {
    ghost var held: Holdings

    constructor ()
      ensures held == map[]
    {
      held := map[];
    }
  }

  /** The session works on the routes of one generation, holds exactly `mine`,
      and every hold of every agent is accounted for. */
  ghost predicate Serving(store: Store, ledger: Ledger, pool: Pool, gen: nat, me: Agent, mine: multiset<Proxy>)
    reads store, ledger, store.model.routes.Keys
  {
    store.Valid() && Balanced(store.model, ledger.held, pool.entries, gen) && Held(ledger.held, me) == mine
  }

  ghost predicate Balanced(w: World, held: Holdings, entries: seq<Proxy>, gen: nat) {
    HoldsMatch(w, held) && HoldsKnown(w, held) && gen < |w.gens| && w.gens[gen].entries == entries
  }

  lemma StaysBalanced(w: World, step: Step, held: Holdings, entries: seq<Proxy>, gen: nat)
    requires w.Valid() && Enabled(w, step.ev) && Balanced(w, held, entries, gen) && Allowed(step, held)
    ensures Balanced(Apply(w, step.ev), HeldAfter(step, held), entries, gen)
  {
    HoldsStep(w, step, held);
  }

  /** Steps of other agents that release only what they hold keep every hold
      accounted for, and neither act nor hold in this agent's name. */
  lemma {:induction false} OthersRun(w: World, run: seq<Step>, w': World, held: Holdings, entries: seq<Proxy>, gen: nat,
                                     me: Agent)
    requires w.Valid() && Reaches(w, Events(run), w') && Disciplined(run, held) && Balanced(w, held, entries, gen)
    requires forall step :: step in run ==> step.agent != me
    ensures w'.Valid() && Balanced(w', HeldAtEnd(run, held), entries, gen)
    ensures Held(HeldAtEnd(run, held), me) == Held(held, me) && Own(run, me) == []
    decreases |run|
  {
    NothingOwn(run, me);
    if run != [] {
      assert Events(run)[1..] == Events(run[1..]);
      OthersStep(w, run[0], held, entries, gen, me);
      OthersRun(Apply(w, run[0].ev), run[1..], w', HeldAfter(run[0], held), entries, gen, me);
    }
  }

  lemma OthersStep(w: World, step: Step, held: Holdings, entries: seq<Proxy>, gen: nat, me: Agent)
    requires w.Valid() && Enabled(w, step.ev) && Balanced(w, held, entries, gen) && Allowed(step, held)
    requires step.agent != me
    ensures Balanced(Apply(w, step.ev), HeldAfter(step, held), entries, gen)
    ensures Held(HeldAfter(step, held), me) == Held(held, me)
  {
    StaysBalanced(w, step, held, entries, gen);
  }

  lemma {:induction false} NothingOwn(run: seq<Step>, me: Agent)
    requires forall step :: step in run ==> step.agent != me
    ensures Own(run, me) == []
  {
    if run != [] {
      NothingOwn(run[..|run| - 1], me);
    }
  }

  // Everything else in the process runs for a while. Callers know only the
  // contract, which is what `OthersRun` says of every such run.
  method Others(store: Store, ledger: Ledger, pool: Pool, ghost gen: nat, ghost me: Agent, ghost mine: multiset<Proxy>)
    requires Serving(store, ledger, pool, gen, me, mine)
    modifies store, ledger, store.model.routes.Keys
    ensures Serving(store, ledger, pool, gen, me, mine) && store.Log(me) == old(store.Log(me))
    ensures forall q :: q in store.model.routes ==> q in old(store.model).routes || fresh(q)
  {
    ghost var run: seq<Step> := [];
    assert Events(run) == [];
    OthersRun(store.model, run, store.model, ledger.held, pool.entries, gen, me);
  }

  /** The session's pool shows the model's routes. */
  lemma PoolViews(store: Store, ledger: Ledger, pool: Pool, gen: nat, me: Agent, mine: multiset<Proxy>)
    requires Serving(store, ledger, pool, gen, me, mine)
    ensures pool.Valid() && Viewed(pool.entries, store.model.routes)
    ensures forall e :: e in pool.entries ==> pool.RouteViews()[e] == store.model.routes[e]
  {
    assert store.model.gens[gen] in store.model.gens;
  }

  /** The allowed routes that have not been tried. */
  ghost function Untried(entries: seq<Proxy>, allow: Option<Proxy -> bool>, tried: set<Proxy>): set<Proxy> {
    set e | e in entries && Admits(allow, e) && e !in tried
  }

  /** There is nothing to pick for the target among the routes not tried. */
  ghost predicate NothingLeft(entries: seq<Proxy>, v: Views, allow: Option<Proxy -> bool>, tried: set<Proxy>,
                              target: string, at: int) {
    Viewed(entries, v) && Pick(entries, v, Untried(entries, allow, tried), target, at) == null
  }

  /** ... exactly when every allowed route not tried is unavailable and cannot
      recover by itself: it is blocked, or out of service. */
  lemma NothingLeftMeaning(entries: seq<Proxy>, v: Views, allow: Option<Proxy -> bool>, tried: set<Proxy>,
                           target: string, at: int)
    requires Viewed(entries, v)
    ensures NothingLeft(entries, v, allow, tried, target, at) <==>
      forall e :: e in entries && Admits(allow, e) && e !in tried ==>
        !v[e].AvailableFor(target, at) && !v[e].MayRecover()
  {
    var ok := Untried(entries, allow, tried);
    var r := Pick(entries, v, ok, target, at);
    if r == null {
      forall e | e in entries && Admits(allow, e) && e !in tried
        ensures !v[e].AvailableFor(target, at) && !v[e].MayRecover()
      {
        assert !Eligible(v, ok, target, at, e) && !Recovering(v, ok, target, at, e);
      }
    } else {
      assert Eligible(v, ok, target, at, r) || Recovering(v, ok, target, at, r);
    }
  }

  // Picks a route for the target among those not tried, and holds it.
  method PickRoute(store: Store, ledger: Ledger, pool: Pool, ghost gen: nat, ghost me: Agent,
                   exclude: set<Proxy>, allow: Option<Proxy -> bool>, target: string, now: int)
      returns (p: Proxy?, ghost ev: Option<Event>)
    requires Serving(store, ledger, pool, gen, me, multiset{})
    modifies store`model, store`run, ledger, pool.entries`inFlight, pool.entries`pass
    ensures p == null <==> ev == None
    ensures p != null ==>
      Serving(store, ledger, pool, gen, me, multiset{p}) && p in pool.entries && p !in exclude && Admits(allow, p)
    ensures p != null ==> ev.value == Picked(gen, Untried(pool.entries, allow, exclude), target, now, p)
    ensures p != null ==> store.Log(me) == old(store.Log(me)) + [ev.value]
    ensures p == null ==> Serving(store, ledger, pool, gen, me, multiset{}) && store.Log(me) == old(store.Log(me))
    ensures p == null ==> NothingLeft(pool.entries, store.model.routes, allow, exclude, target, now)
    ensures store.model.routes.Keys == old(store.model).routes.Keys
  {
    var filter := if allow.None? then (q: Proxy) => true else allow.value;
    assert pool.Offered(exclude, filter) == Untried(pool.entries, allow, exclude);
    p := PickOne(store, ledger, pool, gen, me, exclude, filter, target, now);
    ev := None;
    if p != null {
      PickedRoute(pool.entries, store.model.routes, pool.Offered(exclude, filter), target, now, p);
      ev := Some(Picked(gen, pool.Offered(exclude, filter), target, now, p));
      Account(store, ledger, pool, gen, me, ev.value, p, multiset{});
    }
  }

  method PickOne(store: Store, ledger: Ledger, pool: Pool, ghost gen: nat, ghost me: Agent,
                 exclude: set<Proxy>, allow: Proxy -> bool, target: string, now: int)
      returns (p: Proxy?)
    requires Serving(store, ledger, pool, gen, me, multiset{})
    modifies pool.entries`inFlight, pool.entries`pass
    ensures Viewed(pool.entries, store.model.routes)
    ensures p == Pick(pool.entries, store.model.routes, pool.Offered(exclude, allow), target, now)
    ensures store.AgreesExcept(p)
    ensures p != null ==> p.Valid() && p in store.model.routes && p.View() == store.model.routes[p].Served()
  {
    PoolViews(store, ledger, pool, gen, me, multiset{});
    PickLooksAtEntries(pool.entries, pool.RouteViews(), store.model.routes, pool.Offered(exclude, allow), target, now);
    ghost var v := store.model.routes;
    p := PickAmong(pool, v.Keys, exclude, allow, target, now);
    assert forall q :: q in v && q != p ==> q.View() == v[q];
  }

  // A pick leaves every other route as it was, in the pool or not.
  method PickAmong(pool: Pool, ghost known: set<Proxy>, exclude: set<Proxy>, allow: Proxy -> bool, target: string,
                   now: int)
      returns (p: Proxy?)
    requires pool.Valid()
    modifies pool.entries`inFlight, pool.entries`pass
    ensures p == Pick(pool.entries, old(pool.RouteViews()), pool.Offered(exclude, allow), target, now)
    ensures p != null ==> p.View() == old(p.View()).Served()
    ensures forall q :: q in known && q != p ==> q.View() == old(q.View())
    ensures forall q :: q in known && old(q.Valid()) ==> q.Valid()
  {
    p := pool.PickFor(exclude, allow, target, now);
    forall q | q in known && q != p
      ensures q.View() == old(q.View())
    {
    }
  }

  /** One step of the session on one route, with the holds kept in account. */
  ghost method Account(store: Store, ledger: Ledger, pool: Pool, gen: nat, me: Agent, ev: Event, p: Proxy,
                       mine: multiset<Proxy>)
    requires store.AgreesExcept(p) && Balanced(store.model, ledger.held, pool.entries, gen) &&
      Held(ledger.held, me) == mine
    requires Enabled(store.model, ev) && (ev.Picked? || (ev.Local? && (ev.change.Release? ==> p in mine)))
    requires p in store.model.routes && p == Subject(store.model, ev)
    requires p.Valid() && p.View() == RouteAfter(store.model, ev, p)
    modifies store`model, store`run, ledger
    ensures Serving(store, ledger, pool, gen, me, MineAfter(ev, mine)) && store.Log(me) == old(store.Log(me)) + [ev]
    ensures store.model.routes.Keys == old(store.model).routes.Keys
  {
    Enter(ledger, pool.entries, gen, store.model, Step(me, ev));
    Note(store, ev, p, me);
  }

  ghost method Note(store: Store, ev: Event, p: Proxy, me: Agent)
    requires store.AgreesExcept(p) && Enabled(store.model, ev) && !ev.Published?
    requires p in store.model.routes && p == Subject(store.model, ev)
    requires p.Valid() && p.View() == RouteAfter(store.model, ev, p)
    modifies store`model, store`run
    ensures store.Valid() && store.model == Apply(old(store.model), ev) && store.Log(me) == old(store.Log(me)) + [ev]
    ensures store.model.routes.Keys == old(store.model).routes.Keys
  {
    store.Record(ev, p, me);
  }

  ghost method Enter(ledger: Ledger, entries: seq<Proxy>, gen: nat, w: World, step: Step)
    requires w.Valid() && Enabled(w, step.ev) && Balanced(w, ledger.held, entries, gen) && Allowed(step, ledger.held)
    modifies ledger
    ensures Balanced(Apply(w, step.ev), ledger.held, entries, gen)
    ensures Held(ledger.held, step.agent) == MineAfter(step.ev, Held(old(ledger.held), step.agent))
  {
    StaysBalanced(w, step, ledger.held, entries, gen);
    ledger.held := HeldAfter(step, ledger.held);
  }

  method DropHold(store: Store, ledger: Ledger, pool: Pool, ghost gen: nat, ghost me: Agent, p: Proxy)
    requires Serving(store, ledger, pool, gen, me, multiset{p}) && p in store.model.routes
    modifies store`model, store`run, ledger, p`inFlight
    ensures Serving(store, ledger, pool, gen, me, multiset{})
    ensures store.Log(me) == old(store.Log(me)) + [Local(p, Change.Release)]
    ensures store.model.routes.Keys == old(store.model).routes.Keys
  {
    p.Release();
    Account(store, ledger, pool, gen, me, Local(p, Change.Release), p, multiset{p});
    assert multiset{p} - multiset{p} == multiset{};
  }

  method NoteSuccess(store: Store, ledger: Ledger, pool: Pool, ghost gen: nat, ghost me: Agent, p: Proxy,
                     target: string)
    requires Serving(store, ledger, pool, gen, me, multiset{p}) && p in store.model.routes
    modifies store`model, store`run, ledger,
             p`consecutiveFailures, p`successes, p`cooldownUntil, p`targetCool, p`targetPairs, p`pass
    ensures Serving(store, ledger, pool, gen, me, multiset{p})
    ensures store.Log(me) == old(store.Log(me)) + [Local(p, Success(target))]
    ensures store.model.routes.Keys == old(store.model).routes.Keys
  {
    pool.ReportSuccess(p, target);
    Account(store, ledger, pool, gen, me, Local(p, Success(target)), p, multiset{p});
  }

  method NoteFailure(store: Store, ledger: Ledger, pool: Pool, ghost gen: nat, ghost me: Agent, p: Proxy, now: int)
      returns (ghost ev: Event)
    requires Serving(store, ledger, pool, gen, me, multiset{p}) && p in store.model.routes
    modifies store`model, store`run, ledger, p`consecutiveFailures, p`failures, p`cooldownUntil
    ensures Serving(store, ledger, pool, gen, me, multiset{p}) && store.Log(me) == old(store.Log(me)) + [ev]
    ensures ev == Local(p, Failure(pool.base as int, pool.max as int, now))
    ensures store.model.routes.Keys == old(store.model).routes.Keys
  {
    var cd := pool.ReportFailure(p, now);
    ev := Local(p, Failure(pool.base as int, pool.max as int, now));
    Account(store, ledger, pool, gen, me, ev, p, multiset{p});
  }

  method NoteRefusal(store: Store, ledger: Ledger, pool: Pool, ghost gen: nat, ghost me: Agent, p: Proxy,
                     target: string, now: int)
      returns (ghost ev: Event)
    requires Serving(store, ledger, pool, gen, me, multiset{p}) && p in store.model.routes
    modifies store`model, store`run, ledger, p`targetFailures, p`targetCool, p`targetPairs
    ensures Serving(store, ledger, pool, gen, me, multiset{p}) && store.Log(me) == old(store.Log(me)) + [ev]
    ensures ev.Local? && ev.p == p && ev.change.Refusal? && ev.change.target == target
    ensures store.model.routes.Keys == old(store.model).routes.Keys
  {
    var cd;
    ghost var evicted;
    cd, evicted := pool.ReportTargetFailure(p, target, now);
    ev := Local(p, Refusal(target, evicted, pool.base as int, pool.max as int, now));
    Account(store, ledger, pool, gen, me, ev, p, multiset{p});
  }

  method NoteAuth(store: Store, ledger: Ledger, pool: Pool, ghost gen: nat, ghost me: Agent, p: Proxy)
    requires Serving(store, ledger, pool, gen, me, multiset{p}) && p in store.model.routes
    modifies store`model, store`run, ledger, p`authFailures, p`authBlocked
    ensures Serving(store, ledger, pool, gen, me, multiset{p})
    ensures store.Log(me) == old(store.Log(me)) + [Local(p, AuthRejection)]
    ensures store.model.routes.Keys == old(store.model).routes.Keys
  {
    pool.ReportAuthBlocked(p);
    Account(store, ledger, pool, gen, me, Local(p, AuthRejection), p, multiset{p});
  }

  // ---- The attempt chain

  datatype Attempt = Attempt(p: Proxy, dial: Dial)

  // The answer to the client: the tunnel, 502, or 503.
  datatype Reply = Established(p: Proxy) | BadGateway | Unavailable(exhausted: bool)

  /** What is reported about a route, by how dialling it ended. */
  ghost predicate Reports(c: Change, d: Dial, target: string) {
    match d
    case Connected => c == Success(target)
    case ProxyDown => c.Failure?
    case HandshakeBroken => c.Failure?
    case TargetRefused => c.Refusal? && c.target == target
    case AuthRejected => c == AuthRejection
    case SetupFailed => false
  }

  /** One report, none when dialling never got to the route. */
  ghost predicate IsReport(steps: seq<Event>, p: Proxy, d: Dial, target: string) {
    if d.SetupFailed? then steps == []
    else |steps| == 1 && steps[0].Local? && steps[0].p == p && Reports(steps[0].change, d, target)
  }

  /** The steps after a pick: the report and one release. */
  ghost predicate IsUse(steps: seq<Event>, a: Attempt, target: string) {
    var n := |steps| - 1;
    0 <= n && IsReport(steps[..n], a.p, a.dial, target) && steps[n] == Local(a.p, Change.Release)
  }

  /** The session's steps for one attempt: this very route is picked among those
      not tried yet, then used. */
  ghost predicate IsAttempt(steps: seq<Event>, a: Attempt, untried: set<Proxy>, gen: nat, target: string) {
    steps != [] && steps[0].Picked? && steps[0].gen == gen && steps[0].ok == untried && steps[0].target == target &&
    steps[0].r == a.p && IsUse(steps[1..], a, target)
  }

  ghost function Tried(attempts: seq<Attempt>): set<Proxy> {
    set i | 0 <= i < |attempts| :: attempts[i].p
  }

  ghost function Flatten(steps: seq<seq<Event>>): seq<Event> {
    if steps == [] then [] else Flatten(steps[..|steps| - 1]) + steps[|steps| - 1]
  }

  /** Different routes, all of them allowed, each one picked, reported and
      released once; every attempt but the last failed in a way worth a retry. */
  ghost predicate IsChain(attempts: seq<Attempt>, steps: seq<seq<Event>>, entries: seq<Proxy>,
                          allow: Option<Proxy -> bool>, gen: nat, target: string) {
    |steps| == |attempts| &&
    (forall i, j :: 0 <= i < j < |attempts| ==> attempts[i].p != attempts[j].p) &&
    (forall i :: 0 <= i < |attempts| ==> attempts[i].p in entries && Admits(allow, attempts[i].p)) &&
    (forall i :: 0 <= i < |attempts| ==>
      IsAttempt(steps[i], attempts[i], Untried(entries, allow, Tried(attempts[..i])), gen, target)) &&
    (forall i :: 0 <= i < |attempts| - 1 ==> attempts[i].dial.Retryable())
  }

  lemma TriedGrows(attempts: seq<Attempt>, a: Attempt)
    ensures Tried(attempts + [a]) == Tried(attempts) + {a.p}
    ensures forall i :: 0 <= i < |attempts| ==> attempts[i].p in Tried(attempts)
  {
    assert (attempts + [a])[|attempts|] == a;
    forall p | p in Tried(attempts) + {a.p}
      ensures p in Tried(attempts + [a])
    {
      if p != a.p {
        var i :| 0 <= i < |attempts| && attempts[i].p == p;
        assert (attempts + [a])[i].p == p;
      }
    }
  }

  lemma ChainGrows(attempts: seq<Attempt>, steps: seq<seq<Event>>, entries: seq<Proxy>, allow: Option<Proxy -> bool>,
                   gen: nat, target: string, a: Attempt, more: seq<Event>)
    requires IsChain(attempts, steps, entries, allow, gen, target) &&
      (attempts != [] ==> attempts[|attempts| - 1].dial.Retryable())
    requires a.p !in Tried(attempts) && a.p in entries && Admits(allow, a.p)
    requires IsAttempt(more, a, Untried(entries, allow, Tried(attempts)), gen, target)
    ensures IsChain(attempts + [a], steps + [more], entries, allow, gen, target)
    ensures Tried(attempts + [a]) == Tried(attempts) + {a.p} && Flatten(steps + [more]) == Flatten(steps) + more
  {
    TriedGrows(attempts, a);
    assert (steps + [more])[..|steps|] == steps;
    AttemptsKept(attempts, a, steps, more, entries, allow, gen, target);
  }

  lemma AttemptsKept(attempts: seq<Attempt>, a: Attempt, steps: seq<seq<Event>>, more: seq<Event>, entries: seq<Proxy>,
                     allow: Option<Proxy -> bool>, gen: nat, target: string)
    requires |steps| == |attempts|
    requires forall i :: 0 <= i < |attempts| ==>
      IsAttempt(steps[i], attempts[i], Untried(entries, allow, Tried(attempts[..i])), gen, target)
    requires IsAttempt(more, a, Untried(entries, allow, Tried(attempts)), gen, target)
    ensures forall i :: 0 <= i < |attempts + [a]| ==>
      IsAttempt((steps + [more])[i], (attempts + [a])[i],
                Untried(entries, allow, Tried((attempts + [a])[..i])), gen, target)
  {
    var longer := attempts + [a];
    forall i | 0 <= i < |longer|
      ensures IsAttempt((steps + [more])[i], longer[i], Untried(entries, allow, Tried(longer[..i])), gen, target)
    {
      assert longer[..i] == attempts[..i];
      assert attempts[..|attempts|] == attempts;
    }
  }

  /** Hence there are at most as many attempts as allowed routes. */
  lemma {:induction false} ChainWithinAllowed(attempts: seq<Attempt>, allowed: set<Proxy>)
    requires forall i, j :: 0 <= i < j < |attempts| ==> attempts[i].p != attempts[j].p
    requires forall i :: 0 <= i < |attempts| ==> attempts[i].p in allowed
    ensures |attempts| <= |allowed|
    decreases |attempts|
  {
    if attempts != [] {
      ChainWithinAllowed(attempts[1..], allowed - {attempts[0].p});
    }
  }

  // Dialling is up to the network.
  method DialUpstream() returns (d: Dial)
  {
    d := *;
  }

  // Dials the held route, reports the outcome, serves an established tunnel,
  // and gives the hold back.
  method UseRoute(store: Store, ledger: Ledger, pool: Pool, ghost gen: nat, ghost me: Agent, p: Proxy, target: string,
                  now: int)
      returns (d: Dial, ghost steps: seq<Event>)
    requires Serving(store, ledger, pool, gen, me, multiset{p}) && p in store.model.routes
    modifies store, ledger, store.model.routes.Keys
    ensures Serving(store, ledger, pool, gen, me, multiset{}) && IsUse(steps, Attempt(p, d), target)
    ensures store.Log(me) == old(store.Log(me)) + steps
    ensures forall q :: q in store.model.routes ==> q in old(store.model).routes || fresh(q)
  {
    ghost var report;
    d, report := DialAndReport(store, ledger, pool, gen, me, p, target, now);
    FinishUse(store, ledger, pool, gen, me, p);
    steps := report + [Local(p, Change.Release)];
    UseIs(report, Attempt(p, d), target);
    Regroup(old(store.Log(me)), report, [Local(p, Change.Release)]);
  }

  lemma UseIs(report: seq<Event>, a: Attempt, target: string)
    requires IsReport(report, a.p, a.dial, target)
    ensures IsUse(report + [Local(a.p, Change.Release)], a, target)
  {
    assert (report + [Local(a.p, Change.Release)])[..|report|] == report;
  }

  method DialAndReport(store: Store, ledger: Ledger, pool: Pool, ghost gen: nat, ghost me: Agent, p: Proxy,
                       target: string, now: int)
      returns (d: Dial, ghost report: seq<Event>)
    requires Serving(store, ledger, pool, gen, me, multiset{p}) && p in store.model.routes
    modifies store, ledger, store.model.routes.Keys
    ensures Serving(store, ledger, pool, gen, me, multiset{p}) && IsReport(report, p, d, target)
    ensures store.Log(me) == old(store.Log(me)) + report
    ensures p in store.model.routes
    ensures forall q :: q in store.model.routes ==> q in old(store.model).routes || fresh(q)
  {
    Others(store, ledger, pool, gen, me, multiset{p});
    d := DialUpstream();
    HeldIsKnown(store, ledger, pool, gen, me, p);
    var took: nat :| took >= 0;
    report := Report(store, ledger, pool, gen, me, p, d, target, now + took);
  }

  lemma HeldIsKnown(store: Store, ledger: Ledger, pool: Pool, gen: nat, me: Agent, p: Proxy)
    requires Serving(store, ledger, pool, gen, me, multiset{p})
    ensures p in store.model.routes
  {
    assert p in Held(ledger.held, me);
  }

  method FinishUse(store: Store, ledger: Ledger, pool: Pool, ghost gen: nat, ghost me: Agent, p: Proxy)
    requires Serving(store, ledger, pool, gen, me, multiset{p}) && p in store.model.routes
    modifies store, ledger, store.model.routes.Keys
    ensures Serving(store, ledger, pool, gen, me, multiset{})
    ensures store.Log(me) == old(store.Log(me)) + [Local(p, Change.Release)]
    ensures forall q :: q in store.model.routes ==> q in old(store.model).routes || fresh(q)
  {
    Others(store, ledger, pool, gen, me, multiset{p});
    HeldIsKnown(store, ledger, pool, gen, me, p);
    DropHold(store, ledger, pool, gen, me, p);
  }

  method Report(store: Store, ledger: Ledger, pool: Pool, ghost gen: nat, ghost me: Agent, p: Proxy, d: Dial,
                target: string, now: int)
      returns (ghost steps: seq<Event>)
    requires Serving(store, ledger, pool, gen, me, multiset{p}) && p in store.model.routes
    modifies store`model, store`run, ledger, p
    ensures Serving(store, ledger, pool, gen, me, multiset{p}) && store.Log(me) == old(store.Log(me)) + steps
    ensures IsReport(steps, p, d, target)
    ensures store.model.routes.Keys == old(store.model).routes.Keys
  {
    ghost var ev := Local(p, Change.Release);
    match d {
      case Connected =>
        NoteSuccess(store, ledger, pool, gen, me, p, target);
        ev := Local(p, Success(target));
      case TargetRefused =>
        ev := NoteRefusal(store, ledger, pool, gen, me, p, target, now);
      case AuthRejected =>
        NoteAuth(store, ledger, pool, gen, me, p);
        ev := Local(p, AuthRejection);
      case ProxyDown =>
        ev := NoteFailure(store, ledger, pool, gen, me, p, now);
      case HandshakeBroken =>
        ev := NoteFailure(store, ledger, pool, gen, me, p, now);
      case SetupFailed =>
    }
    steps := if d.SetupFailed? then [] else [ev];
  }

  // The attempt chain of one request. The session's part of the shared run is
  // the chain, step by step, and at the end it holds nothing. It ends only with
  // a tunnel, a setup failure, the deadline, the retry bound, or nothing left.
  method ServeTunnel(store: Store, ledger: Ledger, pool: Pool, ghost gen: nat, ghost me: Agent,
                     allow: Option<Proxy -> bool>, target: string, maxRetries: int, deadline: int, from: int)
      returns (reply: Reply, attempts: seq<Attempt>, ghost steps: seq<seq<Event>>, at: int)
    requires Serving(store, ledger, pool, gen, me, multiset{})
    modifies store, ledger, store.model.routes.Keys
    ensures Serving(store, ledger, pool, gen, me, multiset{}) && at >= from
    ensures store.Log(me) == old(store.Log(me)) + Flatten(steps)
    ensures IsChain(attempts, steps, pool.entries, allow, gen, target)
    ensures IsAnswer(Some(reply), attempts, Bounds(maxRetries, deadline), at)
    ensures reply == Unavailable(false) ==>
      NothingLeft(pool.entries, store.model.routes, allow, Tried(attempts), target, at)
  {
    attempts, steps, at := [], [], from;
    var answer, exclude: set<Proxy> := None, {};
    while answer.None?
      invariant Serving(store, ledger, pool, gen, me, multiset{}) && at >= from
      invariant store.Log(me) == old(store.Log(me)) + Flatten(steps)
      invariant forall q :: q in store.model.routes ==> q in old(store.model).routes || fresh(q)
      invariant IsProgress(answer, attempts, steps, exclude, pool.entries, allow, gen, target,
                           Bounds(maxRetries, deadline), at)
      invariant answer == Some(Unavailable(false)) ==>
        NothingLeft(pool.entries, store.model.routes, allow, exclude, target, at)
      decreases answer.None?, maxRetries - |attempts|
    {
      var wait: nat :| wait >= 0;
      ghost var before, log := Flatten(steps), store.Log(me);
      ghost var more;
      answer, attempts, steps, exclude, more, at :=
        NextAttempt(store, ledger, pool, gen, me, allow, target, at + wait, Bounds(maxRetries, deadline),
                    attempts, steps, exclude);
      Regroup(old(store.Log(me)), before, more);
    }
    reply := answer.value;
  }

  lemma Regroup(a: seq<Event>, b: seq<Event>, c: seq<Event>)
    ensures a + b + c == a + (b + c)
  {
  }

  // What ends a chain without a decision by the network.
  datatype Bounds = Bounds(maxRetries: int, deadline: int)

  /** What the client is told: a tunnel exactly when the last dial connected; 502
      only for a setup failure or behind the deadline; 503 only when retries are
      used up or, with retries left, for want of a route. */
  lemma ReplyMeaning(reply: Reply, attempts: seq<Attempt>, bounds: Bounds, at: int)
    requires IsAnswer(Some(reply), attempts, bounds, at)
    ensures reply.Established? <==> attempts != [] && attempts[|attempts| - 1].dial.Connected?
    ensures reply.Established? ==> reply.p == attempts[|attempts| - 1].p
    ensures reply.BadGateway? ==>
      attempts != [] && (attempts[|attempts| - 1].dial.SetupFailed? || at >= bounds.deadline)
    ensures attempts != [] && attempts[|attempts| - 1].dial.SetupFailed? ==> reply.BadGateway?
    ensures reply.Unavailable? ==> (reply.exhausted <==> |attempts| >= bounds.maxRetries)
    ensures bounds.maxRetries > 0 && reply == Unavailable(true) ==>
      |attempts| == bounds.maxRetries && at < bounds.deadline
  {
    match reply
    case Established(_) =>
    case BadGateway =>
    case Unavailable(_) =>
  }

  ghost predicate IsProgress(answer: Option<Reply>, attempts: seq<Attempt>, steps: seq<seq<Event>>,
                             exclude: set<Proxy>, entries: seq<Proxy>, allow: Option<Proxy -> bool>, gen: nat,
                             target: string, bounds: Bounds, at: int) {
    IsChain(attempts, steps, entries, allow, gen, target) && exclude == Tried(attempts) &&
    |attempts| <= Max(0, bounds.maxRetries) && IsAnswer(answer, attempts, bounds, at)
  }

  /** What the reply, given at a time, says about the attempts. */
  ghost predicate IsAnswer(answer: Option<Reply>, attempts: seq<Attempt>, bounds: Bounds, at: int) {
    var last := if attempts == [] then None else Some(attempts[|attempts| - 1].dial);
    match answer
    case None => attempts != [] ==> attempts[|attempts| - 1].dial.Retryable()
    case Some(Established(p)) => attempts != [] && last == Some(Connected) && p == attempts[|attempts| - 1].p
    case Some(BadGateway) =>
      last == Some(SetupFailed) || (last.Some? && last.value.Retryable() && at >= bounds.deadline)
    case Some(Unavailable(exhausted)) =>
      (last.Some? ==> last.value.Retryable()) &&
      if exhausted then |attempts| == Max(0, bounds.maxRetries) && (last.Some? ==> at < bounds.deadline)
      else |attempts| < bounds.maxRetries
  }

  // The inbound deadline and the retry bound come before another attempt.
  method NextAttempt(store: Store, ledger: Ledger, pool: Pool, ghost gen: nat, ghost me: Agent,
                     allow: Option<Proxy -> bool>, target: string, now: int, bounds: Bounds,
                     was: seq<Attempt>, ghost stepsBefore: seq<seq<Event>>, excluded: set<Proxy>)
      returns (answer: Option<Reply>, attempts: seq<Attempt>, ghost steps: seq<seq<Event>>, exclude: set<Proxy>,
               ghost more: seq<Event>, at: int)
    requires Serving(store, ledger, pool, gen, me, multiset{})
    requires IsProgress(None, was, stepsBefore, excluded, pool.entries, allow, gen, target, bounds, now)
    modifies store, ledger, store.model.routes.Keys
    ensures Serving(store, ledger, pool, gen, me, multiset{}) && at >= now
    ensures store.Log(me) == old(store.Log(me)) + more && Flatten(steps) == Flatten(stepsBefore) + more
    ensures forall q :: q in store.model.routes ==> q in old(store.model).routes || fresh(q)
    ensures IsProgress(answer, attempts, steps, exclude, pool.entries, allow, gen, target, bounds, at)
    ensures answer == Some(Unavailable(false)) ==>
      NothingLeft(pool.entries, store.model.routes, allow, exclude, target, at)
    ensures answer.None? ==> |was| < |attempts| <= bounds.maxRetries
  {
    if was != [] && now >= bounds.deadline {
      return Some(BadGateway), was, stepsBefore, excluded, [], now;
    }
    if |was| >= bounds.maxRetries {
      return Some(Unavailable(true)), was, stepsBefore, excluded, [], now;
    }
    var took: nat :| took >= 0;
    at := now + took;
    answer, attempts, steps, exclude, more :=
      TryNext(store, ledger, pool, gen, me, allow, target, at, bounds, was, stepsBefore, excluded);
  }

  // Picks and uses one more route.
  method TryNext(store: Store, ledger: Ledger, pool: Pool, ghost gen: nat, ghost me: Agent,
                 allow: Option<Proxy -> bool>, target: string, now: int, ghost bounds: Bounds, was: seq<Attempt>,
                 ghost stepsBefore: seq<seq<Event>>, excluded: set<Proxy>)
      returns (answer: Option<Reply>, attempts: seq<Attempt>, ghost steps: seq<seq<Event>>, exclude: set<Proxy>,
               ghost more: seq<Event>)
    requires Serving(store, ledger, pool, gen, me, multiset{}) && |was| < bounds.maxRetries
    requires IsProgress(None, was, stepsBefore, excluded, pool.entries, allow, gen, target, bounds, now)
    modifies store, ledger, store.model.routes.Keys
    ensures Serving(store, ledger, pool, gen, me, multiset{})
    ensures store.Log(me) == old(store.Log(me)) + more && Flatten(steps) == Flatten(stepsBefore) + more
    ensures forall q :: q in store.model.routes ==> q in old(store.model).routes || fresh(q)
    ensures IsProgress(answer, attempts, steps, exclude, pool.entries, allow, gen, target, bounds, now)
    ensures answer == Some(Unavailable(false)) ==>
      NothingLeft(pool.entries, store.model.routes, allow, exclude, target, now)
    ensures answer.None? ==> |was| < |attempts| <= bounds.maxRetries
  {
    var next;
    next, more := PickAndUse(store, ledger, pool, gen, me, allow, target, now, excluded);
    if next.None? {
      NothingUsable(was, stepsBefore, excluded, pool.entries, allow, gen, target, bounds, now);
      return Some(Unavailable(false)), was, stepsBefore, excluded, more;
    }
    ProgressGrows(was, stepsBefore, excluded, pool.entries, allow, gen, target, bounds, now, next.value, more);
    attempts, steps, exclude := was + [next.value], stepsBefore + [more], excluded + {next.value.p};
    answer := AnswerAfter(next.value);
  }

  lemma NothingUsable(was: seq<Attempt>, steps: seq<seq<Event>>, exclude: set<Proxy>, entries: seq<Proxy>,
                      allow: Option<Proxy -> bool>, gen: nat, target: string, bounds: Bounds, now: int)
    requires IsProgress(None, was, steps, exclude, entries, allow, gen, target, bounds, now) &&
      |was| < bounds.maxRetries
    ensures IsProgress(Some(Unavailable(false)), was, steps, exclude, entries, allow, gen, target, bounds, now)
  {
  }

  lemma ProgressGrows(was: seq<Attempt>, steps: seq<seq<Event>>, exclude: set<Proxy>, entries: seq<Proxy>,
                      allow: Option<Proxy -> bool>, gen: nat, target: string, bounds: Bounds, now: int, a: Attempt,
                      more: seq<Event>)
    requires IsProgress(None, was, steps, exclude, entries, allow, gen, target, bounds, now) &&
      |was| < bounds.maxRetries
    requires a.p !in exclude && a.p in entries && Admits(allow, a.p)
    requires IsAttempt(more, a, Untried(entries, allow, exclude), gen, target)
    ensures IsProgress(AnswerAfter(a), was + [a], steps + [more], exclude + {a.p},
                       entries, allow, gen, target, bounds, now)
    ensures Flatten(steps + [more]) == Flatten(steps) + more
  {
    ChainGrows(was, steps, entries, allow, gen, target, a, more);
  }

  function AnswerAfter(a: Attempt): Option<Reply> {
    if a.dial.Connected? then Some(Established(a.p))
    else if a.dial.SetupFailed? then Some(BadGateway)
    else None
  }

  method PickAndUse(store: Store, ledger: Ledger, pool: Pool, ghost gen: nat, ghost me: Agent,
                    allow: Option<Proxy -> bool>, target: string, now: int, exclude: set<Proxy>)
      returns (next: Option<Attempt>, ghost steps: seq<Event>)
    requires Serving(store, ledger, pool, gen, me, multiset{})
    modifies store, ledger, store.model.routes.Keys
    ensures Serving(store, ledger, pool, gen, me, multiset{}) && store.Log(me) == old(store.Log(me)) + steps
    ensures forall q :: q in store.model.routes ==> q in old(store.model).routes || fresh(q)
    ensures next.None? ==> steps == [] && NothingLeft(pool.entries, store.model.routes, allow, exclude, target, now)
    ensures next.Some? ==> next.value.p in pool.entries && next.value.p !in exclude && Admits(allow, next.value.p)
    ensures next.Some? ==> IsAttempt(steps, next.value, Untried(pool.entries, allow, exclude), gen, target)
  {
    var p;
    ghost var pick;
    p, pick := PickForSession(store, ledger, pool, gen, me, exclude, allow, target, now);
    if p == null {
      return None, [];
    }
    var d;
    ghost var use;
    d, use := UseRoute(store, ledger, pool, gen, me, p, target, now);
    next, steps := Some(Attempt(p, d)), [pick.value] + use;
    AttemptIs(pick.value, use, next.value, Untried(pool.entries, allow, exclude), gen, target);
    Regroup(old(store.Log(me)), [pick.value], use);
  }

  lemma AttemptIs(pick: Event, use: seq<Event>, a: Attempt, untried: set<Proxy>, gen: nat, target: string)
    requires pick.Picked? && pick.gen == gen && pick.ok == untried && pick.target == target && pick.r == a.p
    requires IsUse(use, a, target)
    ensures IsAttempt([pick] + use, a, untried, gen, target)
  {
    assert ([pick] + use)[1..] == use;
  }

  method PickForSession(store: Store, ledger: Ledger, pool: Pool, ghost gen: nat, ghost me: Agent,
                        exclude: set<Proxy>, allow: Option<Proxy -> bool>, target: string, now: int)
      returns (p: Proxy?, ghost ev: Option<Event>)
    requires Serving(store, ledger, pool, gen, me, multiset{})
    modifies store, ledger, store.model.routes.Keys
    ensures p == null <==> ev == None
    ensures p == null ==> Serving(store, ledger, pool, gen, me, multiset{}) && store.Log(me) == old(store.Log(me))
    ensures p == null ==> NothingLeft(pool.entries, store.model.routes, allow, exclude, target, now)
    ensures p != null ==> Serving(store, ledger, pool, gen, me, multiset{p}) && p in store.model.routes
    ensures p != null ==> p in pool.entries && p !in exclude && Admits(allow, p)
    ensures p != null ==> ev.value == Picked(gen, Untried(pool.entries, allow, exclude), target, now, p)
    ensures p != null ==> store.Log(me) == old(store.Log(me)) + [ev.value]
    ensures forall q :: q in store.model.routes ==> q in old(store.model).routes || fresh(q)
  {
    Others(store, ledger, pool, gen, me, multiset{});
    PoolViews(store, ledger, pool, gen, me, multiset{});
    p, ev := PickRoute(store, ledger, pool, gen, me, exclude, allow, target, now);
    if p != null {
      HeldIsKnown(store, ledger, pool, gen, me, p);
    }
  }
}
