// Every run of the shared route state: any interleaving of picks, releases,
// health reports, rotation transitions and reloads, one critical section per
// step. Commits are addressed to the live generation as one step with respect
// to reloads, and a pick is one step with respect to a rotation beginning.
module RouteRuns {
  import opened Routes
  import opened RoutePool

  // The route list and label view of one published generation.
  datatype Generation = Generation(entries: seq<Proxy>, ids: map<Proxy, string>)

  datatype World = World(
    routes: Views,                // every route that ever existed
    gens: seq<Generation>,        // every generation ever published, the live one last
    baselined: set<Proxy>,        // routes whose first address came from a baseline
    unsettled: set<Proxy>,        // ... and that have not committed since
    rotations: nat,               // the engine's totals
    revisits: nat,
    uncredited: multiset<bool>)   // commits the engine has not counted yet
  {
    ghost predicate Valid() {
      gens != [] &&
      (forall g :: g in gens ==> DistinctRoutes(g.entries) && Viewed(g.entries, routes))
    }

    ghost function Live(): Generation
      requires gens != []
    {
      gens[|gens| - 1]
    }
  }

  // A transition of one route's own state.
  datatype Change =
    | Release
    | Success(target: string)
    | Failure(base: int, max: int, now: int)
    | Refusal(target: string, evicted: set<string>, base: int, max: int, now: int)
    | AuthRejection
    | Begin
    | Phase(phase: RotationState)
    | ClearHealth
    | Abandon

  ghost predicate ChangeEnabled(p: Proxy, r: Route, c: Change) {
    match c
    case Refusal(target, evicted, _, _, now) => MakesRoom(r.health.pairs, target, now, evicted)
    case Begin => p.origin == Manual
    case Phase(phase) => phase == Rotating || phase == Verifying
    case _ => true
  }

  ghost function Changed(r: Route, c: Change): Route {
    match c
    case Release => r.Released()
    case Success(target) => r.Succeeded(target)
    case Failure(base, max, now) => r.DialFailed(base, max, now)
    case Refusal(target, evicted, base, max, now) => r.TargetRefused(target, evicted, base, max, now)
    case AuthRejection => r.AuthFailed()
    case Begin => r.(turn := r.turn.Begun(Draining))
    case Phase(phase) => r.(turn := r.turn.InPhase(phase))
    case ClearHealth => r.(health := r.health.Cleared())
    case Abandon => r.(turn := r.turn.Abandoned())
  }

  datatype Event =
    | Picked(gen: nat, ok: set<Proxy>, target: string, now: int, r: Proxy)
    | Local(p: Proxy, change: Change)
    | Commit(p: Proxy, ip: Address, at: int)
    | Credited(revisit: bool)
    | StaleReturn(p: Proxy, wait: int, run: nat)
    | Baseline(p: Proxy, ip: Address)
    | Published(specs: seq<RouteSpec>, next: Generation)

  ghost predicate Enabled(w: World, ev: Event)
    requires w.Valid()
  {
    match ev
    case Picked(gen, ok, target, now, r) =>
      gen < |w.gens| && r == Pick(w.gens[gen].entries, w.routes, ok, target, now)
    case Local(p, c) => p in w.routes && ChangeEnabled(p, w.routes[p], c)
    case Commit(p, _, _) => p in w.routes && p.origin == Manual
    case Credited(revisit) => revisit in w.uncredited
    case StaleReturn(p, _, run) => p in w.routes && p.origin == Manual && run > 0
    case Baseline(p, _) => p in w.routes
    case Published(specs, next) =>
      DistinctSpecs(specs) && IsReload(w.Live().entries, specs, next.entries) &&
      IsLabelView(specs, next.entries, next.ids) &&
      forall e :: e in next.entries ==> e in w.Live().entries || e !in w.routes
  }

  /** The largest pass of a list, at least `floor`. */
  ghost function TopPass(entries: seq<Proxy>, v: Views, floor: nat): (top: nat)
    requires Viewed(entries, v)
    ensures floor <= top && forall e :: e in entries ==> v[e].pass <= top
    ensures top == floor || exists e :: e in entries && top == v[e].pass
  {
    if entries == [] then floor else
      var rest := TopPass(entries[1..], v, floor);
      if v[entries[0]].pass > rest then v[entries[0]].pass else rest
  }

  /** The smallest pass of a list, 0 for the empty one. */
  ghost function BottomPass(entries: seq<Proxy>, v: Views): (bottom: nat)
    requires Viewed(entries, v)
    ensures IsAnchor(entries, v, bottom)
  {
    if entries == [] then 0 else
      var rest := BottomPass(entries[1..], v);
      assert entries[0] in entries;
      if |entries| == 1 || v[entries[0]].pass < rest then v[entries[0]].pass else rest
  }

  /** A commit is recorded when the route is in the live list and no other
      manual route of that list holds the address. */
  ghost predicate Accepts(w: World, p: Proxy, ip: Address)
    requires w.Valid()
  {
    p in w.Live().entries && !HeldElsewhere(w.Live().entries, w.routes, p, ip)
  }

  /** What a step does to one route that already exists. */
  ghost function RouteAfter(w: World, ev: Event, p: Proxy): Route
    requires w.Valid() && Enabled(w, ev) && p in w.routes
  {
    var r := w.routes[p];
    match ev
    case Picked(_, _, _, _, picked) => if picked == p then r.Served() else r
    case Local(q, c) => if q == p then Changed(r, c) else r
    case Commit(q, ip, at) => if q == p && Accepts(w, q, ip) then r.Committed(ip, at) else r
    case StaleReturn(q, wait, run) =>
      if q == p then r.(turn := r.turn.ReturnedStale(wait, run),
                        pass := TopPass(w.Live().entries, w.routes, r.pass) + 1) else r
    case Baseline(q, ip) => if q == p then r.(egress := r.egress.Baselined(ip)) else r
    case Credited(_) => r
    case Published(_, _) => r
  }

  /** The one existing route a step may touch. */
  ghost function Subject(w: World, ev: Event): Proxy?
    requires w.Valid() && Enabled(w, ev)
  {
    match ev
    case Picked(_, _, _, _, picked) => picked
    case Local(p, _) => p
    case Commit(p, _, _) => p
    case StaleReturn(p, _, _) => p
    case Baseline(p, _) => p
    case Credited(_) => null
    case Published(_, _) => null
  }

  lemma OthersUntouched(w: World, ev: Event, p: Proxy)
    requires w.Valid() && Enabled(w, ev) && p in w.routes && p != Subject(w, ev)
    ensures RouteAfter(w, ev, p) == w.routes[p]
  {
  }

  ghost function RoutesAfter(w: World, ev: Event): Views
    requires w.Valid() && Enabled(w, ev)
  {
    var added := if ev.Published? then set e | e in ev.next.entries && e !in w.routes else {};
    map e | e in w.routes.Keys + added ::
      if e in w.routes then RouteAfter(w, ev, e)
      else FreshRoute(e.origin, BottomPass(w.Live().entries, w.routes))
  }

  ghost function Apply(w: World, ev: Event): (w': World)
    requires w.Valid() && Enabled(w, ev)
    ensures w'.Valid()
  {
    var routes := RoutesAfter(w, ev);
    match ev
    case Published(_, next) =>
      assert forall e :: e in next.entries ==> e in routes;
      w.(routes := routes, gens := w.gens + [next])
    case Commit(p, ip, _) =>
      if !Accepts(w, p, ip) then w.(routes := routes) else
        w.(routes := routes, unsettled := w.unsettled - {p},
           uncredited := w.uncredited + multiset{w.routes[p].egress.Revisits(ip)})
    case Baseline(p, ip) =>
      if w.routes[p].egress.lastIP != UNKNOWN then w.(routes := routes) else
        w.(routes := routes, baselined := w.baselined + {p}, unsettled := w.unsettled + {p})
    case Credited(revisit) =>
      w.(routes := routes, rotations := w.rotations + 1,
         revisits := w.revisits + (if revisit then 1 else 0),
         uncredited := w.uncredited - multiset{revisit})
    case _ => w.(routes := routes)
  }

  /** A step leaves every known route as `RouteAfter` says and adds fresh ones. */
  lemma RoutesAfterStep(w: World, ev: Event)
    requires w.Valid() && Enabled(w, ev)
    ensures w.routes.Keys <= Apply(w, ev).routes.Keys
    ensures forall p :: p in w.routes ==> Apply(w, ev).routes[p] == RouteAfter(w, ev, p)
    ensures forall p :: p in Apply(w, ev).routes && p !in w.routes ==>
      ev.Published? && Apply(w, ev).routes[p] == FreshRoute(p.origin, BottomPass(w.Live().entries, w.routes))
  {
  }

  /** The events take one world to the other, each enabled in turn. */
  ghost predicate Reaches(w: World, events: seq<Event>, w': World)
    requires w.Valid()
    decreases |events|
  {
    if events == [] then w' == w
    else Enabled(w, events[0]) && Reaches(Apply(w, events[0]), events[1..], w')
  }

  lemma {:induction false} RunExtends(w: World, events: seq<Event>, mid: World, ev: Event)
    requires w.Valid() && Reaches(w, events, mid) && mid.Valid() && Enabled(mid, ev)
    ensures Reaches(w, events + [ev], Apply(mid, ev))
    decreases |events|
  {
    var more := events + [ev];
    if events == [] {
      assert more[1..] == [];
      assert Reaches(Apply(w, ev), [], Apply(w, ev));
    } else {
      assert more[1..] == events[1..] + [ev];
      RunExtends(Apply(w, events[0]), events[1..], mid, ev);
    }
  }

  /** A first generation of fresh routes and nothing recorded yet. */
  ghost predicate Boot(w: World) {
    w.Valid() && |w.gens| == 1 && w.routes.Keys == (set e | e in w.gens[0].entries) &&
    (forall e :: e in w.routes ==> w.routes[e] == FreshRoute(e.origin, 0)) &&
    w.baselined == {} && w.unsettled == {} && w.rotations == 0 && w.revisits == 0 && w.uncredited == multiset{}
  }
}
