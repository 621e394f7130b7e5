// The store of generations, and the heap seen as a world of route runs: every
// call on the shared pool and its routes is one enabled step of that model.
module Generations {
  import opened Cooldown
  import opened Routes
  import opened RoutePool
  import opened RouteRuns
  import opened RouteSafety

  /** Publishing a reload is a step; new routes are fresh, at the given anchor. */
  lemma PublishedStep(w: World, v: Views, anchor: nat, specs: seq<RouteSpec>, next: Generation) returns (w': World)
    requires w.Valid() && DistinctSpecs(specs)
    requires IsReload(w.Live().entries, specs, next.entries) && IsLabelView(specs, next.entries, next.ids)
    requires forall e :: e in next.entries ==> e in w.Live().entries || e !in w.routes
    requires Viewed(w.Live().entries, v) && IsAnchor(w.Live().entries, v, anchor)
    requires forall e :: e in w.Live().entries ==> v[e] == w.routes[e]
    ensures Enabled(w, Published(specs, next))
    ensures w' == Apply(w, Published(specs, next))
    ensures w'.Live() == next && w.routes.Keys <= w'.routes.Keys &&
      (forall p :: p in w.routes ==> w'.routes[p] == w.routes[p]) &&
      (forall p :: p in w'.routes && p !in w.routes ==>
        p in next.entries && w'.routes[p] == FreshRoute(p.origin, anchor))
  {
    var ev := Published(specs, next);
    assert anchor == BottomPass(w.Live().entries, w.routes);
    RoutesAfterStep(w, ev);
    w' := Apply(w, ev);
  }

  /** A step touches its subject only. */
  lemma OneRouteStep(w: World, ev: Event)
    requires w.Valid() && Enabled(w, ev) && !ev.Published?
    ensures var w' := Apply(w, ev);
      w'.gens == w.gens && w'.routes.Keys == w.routes.Keys &&
      forall p :: p in w.routes ==> w'.routes[p] == if p == Subject(w, ev) then RouteAfter(w, ev, p) else w.routes[p]
  {
    RoutesAfterStep(w, ev);
    forall p | p in w.routes && p != Subject(w, ev)
      ensures RouteAfter(w, ev, p) == w.routes[p]
    {
      OthersUntouched(w, ev, p);
    }
  }

  lemma CreditStep(w: World, revisit: bool)
    requires w.Valid() && Enabled(w, Credited(revisit))
    ensures Apply(w, Credited(revisit)).gens == w.gens && Apply(w, Credited(revisit)).routes == w.routes
  {
    RoutesAfterStep(w, Credited(revisit));
  }

  /** No other route, and no route list, changed. */
  ghost predicate OnlyRoute(w: World, w': World, p: Proxy) {
    w'.gens == w.gens && w'.routes.Keys == w.routes.Keys && forall q :: q in w.routes && q != p ==>
      w'.routes[q] == w.routes[q]
  }

  // Who takes a step: a rotation procedure, an inbound session, the check at
  // boot, or any other part of the process.
  datatype Agent = Rotation(serial: nat) | Session(serial: nat) | BootCheck | Elsewhere

  datatype Step = Step(agent: Agent, ev: Event)

  ghost function Events(run: seq<Step>): seq<Event> {
    seq(|run|, i requires 0 <= i < |run| => run[i].ev)
  }

  /** What one agent did, in order. */
  ghost function Own(run: seq<Step>, me: Agent): seq<Event> {
    if run == [] then [] else
      var last := run[|run| - 1];
      Own(run[..|run| - 1], me) + if last.agent == me then [last.ev] else []
  }

  lemma RunGrows(run: seq<Step>, agent: Agent, ev: Event, me: Agent)
    ensures Events(run + [Step(agent, ev)]) == Events(run) + [ev]
    ensures Own(run + [Step(agent, ev)], me) == Own(run, me) + if agent == me then [ev] else []
  {
    var more := run + [Step(agent, ev)];
    assert more[..|more| - 1] == run;
  }

  // A mark for the verifier: the steps that led to a world are unfolded only
  // where this predicate is mentioned, which keeps every other proof small.
  ghost predicate HistoryWanted(w: World) {
    true
  }

  class Store {
    var live: Pool                // the published generation's pool
    ghost const origin: World     // the first generation, nothing recorded yet
    ghost var run: seq<Step>      // what has happened since, and by whom
    ghost var model: World        // where that led

    /** The run led to the model. */
    ghost predicate Recorded()
      reads this`run, this`model
    {
      forall w {:trigger HistoryWanted(w)} :: HistoryWanted(w) && w == model ==>
        origin.Valid() && Reaches(origin, Events(run), w)
    }

    lemma History()
      requires Recorded()
      ensures origin.Valid() && Reaches(origin, Events(run), model)
    {
      assert HistoryWanted(model);
    }

    /** What one agent did to the shared state so far. */
    ghost function Log(me: Agent): seq<Event>
      reads this`run
    {
      Own(run, me)
    }

    ghost method Extend(ev: Event, me: Agent)
      requires Recorded() && model.Valid() && Enabled(model, ev)
      modifies this`model, this`run
      ensures Recorded() && run == old(run) + [Step(me, ev)] && model == Apply(old(model), ev)
      ensures Log(me) == old(Log(me)) + [ev]
    {
      History();
      RunExtends(origin, Events(run), model, ev);
      RunGrows(run, me, ev, me);
      run, model := run + [Step(me, ev)], Apply(model, ev);
    }

    /** The heap agrees with the model, except possibly on one route. */
    ghost predicate AgreesExcept(skip: Proxy?)
      reads this, model.routes.Keys
    {
      Recorded() && model.Valid() && model.Live() == Generation(live.entries, live.ids) &&
      forall p :: p in model.routes && p != skip ==> p.Valid() && p.View() == model.routes[p]
    }

    ghost predicate Valid()
      reads this, model.routes.Keys
    {
      AgreesExcept(null)
    }

    constructor (pool: Pool)
      requires pool.Valid() && forall e :: e in pool.entries ==> e.View() == FreshRoute(e.origin, 0)
      ensures Valid() && live == pool && Boot(origin) && run == []
    {
      live := pool;
      var w := World(map e | e in pool.entries :: FreshRoute(e.origin, 0), [Generation(pool.entries, pool.ids)],
                     {}, {}, 0, 0, multiset{});
      origin, run, model := w, [], w;
    }

    method Load() returns (pool: Pool)
      ensures pool == live
    {
      pool := live;
    }

    // Builds the next pool from the live one and publishes it.
    method Publish(routes: seq<RouteSpec>, base: Duration, max: Duration, ghost me: Agent)
      requires Valid() && DistinctSpecs(routes)
      modifies this
      ensures Valid() && Log(me) == old(Log(me)) + [Published(routes, Generation(live.entries, live.ids))]
    {
      var next;
      ghost var ev, after;
      next, ev, after := Build(routes, base, max);
      live := next;
      Adopt(ev, after, me);
    }

    method Build(routes: seq<RouteSpec>, base: Duration, max: Duration)
        returns (next: Pool, ghost ev: Event, ghost after: World)
      requires Valid() && DistinctSpecs(routes)
      ensures ev == Published(routes, Generation(next.entries, next.ids)) && Enabled(model, ev)
      ensures after == Apply(model, ev) && after.Live() == ev.next
      ensures forall p :: p in after.routes ==> p.Valid() && p.View() == after.routes[p]
    {
      ghost var anchor;
      next, anchor := live.Reconfigure(routes, base, max);
      ev := Published(routes, Generation(next.entries, next.ids));
      after := PublishedStep(model, live.RouteViews(), anchor, routes, ev.next);
      assert forall p :: p in model.routes ==> p.Valid() && p.View() == model.routes[p];
      Shows(model.routes, after.routes, next.entries, anchor);
    }

    /** Old routes as they were, new ones fresh. */
    lemma Shows(before: Views, after: Views, entries: seq<Proxy>, anchor: nat)
      requires forall p :: p in before ==> p in after && after[p] == before[p] && p.Valid() && p.View() == before[p]
      requires forall p :: p in after && p !in before ==> p in entries && after[p] == FreshRoute(p.origin, anchor)
      requires forall p :: p in entries && p !in before ==> p.Valid() && p.View() == FreshRoute(p.origin, anchor)
      ensures forall p :: p in after ==> p.Valid() && p.View() == after[p]
    {
    }

    /** The heap shows the generation the step publishes. */
    ghost method Adopt(ev: Event, after: World, me: Agent)
      requires Recorded() && model.Valid() && ev.Published? && Enabled(model, ev) && after == Apply(model, ev)
      requires after.Live() == Generation(live.entries, live.ids)
      requires forall p :: p in after.routes ==> p.Valid() && p.View() == after.routes[p]
      modifies this`model, this`run
      ensures Valid() && Log(me) == old(Log(me)) + [ev]
    {
      Extend(ev, me);
    }

    /** Every other call on the shared state touches one route. When its
        contract has left that route as the model's step does, and nothing else
        has changed, the run has taken that step. */
    ghost method Record(ev: Event, p: Proxy, me: Agent)
      requires AgreesExcept(p) && Enabled(model, ev) && !ev.Published?
      requires p in model.routes && p == Subject(model, ev)
      requires p.Valid() && p.View() == RouteAfter(model, ev, p)
      modifies this`model, this`run
      ensures Valid() && Log(me) == old(Log(me)) + [ev] && model == Apply(old(model), ev)
      ensures run == old(run) + [Step(me, ev)]
      ensures OnlyRoute(old(model), model, p) && model.routes[p] == RouteAfter(old(model), ev, p)
    {
      OneRouteStep(model, ev);
      Extend(ev, me);
    }

    /** The engine counts a commit. */
    ghost method Credit(revisit: bool, me: Agent)
      requires Valid() && Enabled(model, Credited(revisit))
      modifies this`model, this`run
      ensures Valid() && Log(me) == old(Log(me)) + [Credited(revisit)] && model.routes == old(model).routes
    {
      CreditStep(model, revisit);
      Extend(Credited(revisit), me);
    }
  }

  /** Whatever has been done to a store since its first generation, the
      invariants of every run hold of it. */
  lemma StoreInvariants(store: Store)
    requires store.Valid() && Boot(store.origin)
    ensures TurnsConsistent(store.model) && EgressExclusive(store.model) && TotalsAgree(store.model)
    ensures (forall ev :: ev in Events(store.run) ==> LiteralOnly(ev)) ==> HistoriesConserved(store.model)
    ensures store.origin.Valid() && (AlwaysFindsRoom(store.origin, Events(store.run)) ==> Capped(store.model))
    ensures (forall ev :: ev in Events(store.run) ==> NamedAndRepresentable(ev)) ==>
      forall p :: p in store.model.routes ==> PairsBounded(store.model.routes[p].health.pairs)
  {
    store.History();
    RunInvariants(store.origin, Events(store.run), store.model);
  }

  lemma RunInvariants(w: World, events: seq<Event>, w': World)
    requires Boot(w) && Reaches(w, events, w')
    ensures w'.Valid() && TurnsConsistent(w') && EgressExclusive(w') && TotalsAgree(w')
    ensures (forall ev :: ev in events ==> LiteralOnly(ev)) ==> HistoriesConserved(w')
    ensures AlwaysFindsRoom(w, events) ==> Capped(w')
    ensures (forall ev :: ev in events ==> NamedAndRepresentable(ev)) ==>
      forall p :: p in w'.routes ==> PairsBounded(w'.routes[p].health.pairs)
  {
    BootEstablishes(w);
    GenerationsFrozen(w, events, w');
    TurnsStayConsistent(w, events, w');
    EgressStaysExclusive(w, events, w');
    TotalsStayAgreed(w, events, w');
    if forall ev :: ev in events ==> LiteralOnly(ev) {
      HistoriesStayConserved(w, events, w');
    }
    if AlwaysFindsRoom(w, events) {
      PairsStayCapped(w, events, w');
    }
    if forall ev :: ev in events ==> NamedAndRepresentable(ev) {
      PairsStayBounded(w, events, w');
    }
  }
}
