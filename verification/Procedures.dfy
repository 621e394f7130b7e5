// One rotation procedure: drain, baseline, provider call, verification, and the
// terminal record, with everything else that shares the state running between
// any two of its steps.
module Procedures {
  import opened Common
  import opened Cooldown
  import opened Routes
  import opened RoutePool
  import opened RouteRuns
  import opened Generations
  import opened Scheduling

  // ---- What the rest of the process may do meanwhile

  /** Steps that are not this route's own procedure: only a procedure begins,
      phases, commits or marks stale, and a route has one at a time. */
  ghost predicate Foreign(events: seq<Event>, p: Proxy) {
    forall ev :: ev in events ==> ForeignStep(ev, p)
  }

  ghost predicate ForeignStep(ev: Event, p: Proxy) {
    !(ev.Local? && ev.p == p && (ev.change.Begin? || ev.change.Phase? || ev.change.ClearHealth?)) &&
    !(ev.Commit? && ev.p == p) && !(ev.StaleReturn? && ev.p == p)
  }

  /** What such steps leave of the route: no rotation is recorded or begun; a
      procedure may only be abandoned, and while it is not, no hold is added. */
  ghost predicate RouteUndisturbed(r: Route, r': Route) {
    r'.egress.rotationCount == r.egress.rotationCount && r'.egress.revisitCount == r.egress.revisitCount &&
    (r'.egress.lastIP == r.egress.lastIP || r.egress.lastIP == UNKNOWN) &&
    r'.turn.sameIP == r.turn.sameIP &&
    (!r.turn.state.InProcedure() ==> r'.turn.state == r.turn.state) &&
    (r'.turn.rotating ==> r.turn.rotating && r'.turn.state == r.turn.state && r'.inFlight <= r.inFlight)
  }

  lemma {:induction false} ForeignRun(w: World, events: seq<Event>, w': World, p: Proxy)
    requires w.Valid() && Reaches(w, events, w') && Foreign(events, p) && p in w.routes
    ensures w'.Valid() && p in w'.routes && RouteUndisturbed(w.routes[p], w'.routes[p])
    decreases |events|
  {
    if events != [] {
      assert ForeignStep(events[0], p);
      ForeignStepKeeps(w, events[0], p);
      ForeignRun(Apply(w, events[0]), events[1..], w', p);
    }
  }

  lemma ForeignStepKeeps(w: World, ev: Event, p: Proxy)
    requires w.Valid() && Enabled(w, ev) && ForeignStep(ev, p) && p in w.routes
    ensures p in Apply(w, ev).routes && RouteUndisturbed(w.routes[p], Apply(w, ev).routes[p])
  {
    RoutesAfterStep(w, ev);
    if ev.Picked? && ev.r == p {
      PickedRoute(w.gens[ev.gen].entries, w.routes, ev.ok, ev.target, ev.now, p);
    }
  }

  // ---- What a procedure has done so far

  ghost function By(me: Procedure): Agent {
    Rotation(me.serial)
  }

  // The route, and the procedure's own part of the shared run.
  datatype Snap = Snap(p: Proxy, r: Route, log: seq<Event>)

  ghost function Now(store: Store, p: Proxy, me: Procedure): Snap
    requires p in store.model.routes
    reads store
  {
    Snap(p, store.model.routes[p], store.Log(By(me)))
  }

  /** A step that records no outcome: beginning, showing a phase, giving up, and
      a commit, which may have been refused. */
  ghost predicate Quiet(ev: Event, p: Proxy) {
    (ev.Local? && ev.p == p && (ev.change.Begin? || ev.change.Phase? || ev.change.Abandon?)) ||
      (ev.Commit? && ev.p == p)
  }

  /** Nothing but quiet steps was added. */
  ghost predicate Quietly(log: seq<Event>, log': seq<Event>, p: Proxy) {
    log <= log' && forall i :: |log| <= i < |log'| ==> Quiet(log'[i], p)
  }

  ghost predicate Undisturbed(s: Snap, s': Snap) {
    s'.p == s.p && RouteUndisturbed(s.r, s'.r) && Quietly(s.log, s'.log, s.p)
  }

  // Everything else in the process runs for a while. Callers know only the
  // contract: what every foreign run leaves of the route, by `ForeignRun`, and
  // that nobody acts in this procedure's name.
  method Others(engine: Engine, store: Store, p: Proxy, ghost me: Procedure, ghost owed: multiset<bool>)
    requires Ongoing(engine, store, p, me) && owed <= store.model.uncredited
    modifies engine, store, store.model.routes.Keys
    ensures Ongoing(engine, store, p, me) && owed <= store.model.uncredited
    ensures forall q :: q in store.model.routes ==> q in old(store.model).routes || fresh(q)
    ensures RouteUndisturbed(old(store.model).routes[p], store.model.routes[p])
    ensures store.Log(By(me)) == old(store.Log(By(me)))
  {
    ghost var events: seq<Event> := [];
    assert Foreign(events, p);
    ForeignRun(store.model, events, store.model, p);
  }

  /** The procedure runs, for a route the shared state knows, and routes are out
      of service only for procedures that run. */
  ghost predicate Ongoing(engine: Engine, store: Store, p: Proxy, me: Procedure)
    reads engine, store, store.model.routes.Keys
  {
    store.Valid() && engine.Valid() && RotatingOwned(store.model, engine.running) &&
    me in engine.running && me.p == p && p in store.model.routes && p.origin == Manual
  }

  // ---- The procedure's own steps on the shared state

  method Begin(store: Store, p: Proxy, ghost agent: Agent)
    requires store.Valid() && p in store.model.routes && p.origin == Manual
    modifies p`rotating, p`rotationEpoch, p`rotationState, p`nextRetryIn, store`model, store`run
    ensures store.Valid() && store.live == old(store.live)
    ensures store.Log(agent) == old(store.Log(agent)) + [Local(p, Change.Begin)]
    ensures OnlyRoute(old(store.model), store.model, p)
    ensures var r := old(store.model).routes[p]; store.model.routes[p] == r.(turn := r.turn.Begun(Draining))
    ensures p.rotating && p.rotationEpoch == old(p.rotationEpoch) + 1
  {
    p.BeginRotation(Draining);
    store.Record(Local(p, Change.Begin), p, agent);
  }

  method EnterPhase(store: Store, p: Proxy, ghost agent: Agent, phase: RotationState)
    requires store.Valid() && p in store.model.routes && (phase == Rotating || phase == Verifying)
    modifies p`rotationState, store`model, store`run
    ensures store.Valid() && store.live == old(store.live)
    ensures store.Log(agent) == old(store.Log(agent)) + [Local(p, Phase(phase))]
    ensures OnlyRoute(old(store.model), store.model, p)
    ensures var r := old(store.model).routes[p]; store.model.routes[p] == r.(turn := r.turn.InPhase(phase))
  {
    p.SetRotationPhase(phase);
    store.Record(Local(p, Phase(phase)), p, agent);
  }

  method ClearDialHealth(store: Store, p: Proxy, ghost agent: Agent)
    requires store.Valid() && p in store.model.routes
    modifies p`consecutiveFailures, p`cooldownUntil, p`targetCool, p`targetPairs, store`model, store`run
    ensures store.Valid() && store.live == old(store.live)
    ensures store.Log(agent) == old(store.Log(agent)) + [Local(p, ClearHealth)]
    ensures OnlyRoute(old(store.model), store.model, p)
    ensures store.model.uncredited == old(store.model).uncredited
    ensures var r := old(store.model).routes[p]; store.model.routes[p] == r.(health := r.health.Cleared())
  {
    p.MarkRotated();
    store.Record(Local(p, ClearHealth), p, agent);
  }

  /** The heap's views of the live list are the model's. */
  lemma LiveViews(store: Store)
    requires store.Valid()
    ensures store.live.Valid() && Viewed(store.live.entries, store.model.routes)
    ensures forall e :: e in store.live.entries ==> store.live.RouteViews()[e] == store.model.routes[e]
  {
    assert store.model.Live() in store.model.gens;
  }

  lemma CommitAgrees(store: Store, p: Proxy, ip: Address)
    requires store.Valid()
    ensures store.live.Valid() && Viewed(store.live.entries, store.live.RouteViews())
    ensures Accepts(store.model, p, ip) <==>
      p in store.live.entries && !HeldElsewhere(store.live.entries, store.live.RouteViews(), p, ip)
  {
    LiveViews(store);
  }

  // The commit is taken as one step with respect to publishing.
  method TryCommit(store: Store, p: Proxy, ip: Address, at: int) returns (result: CommitResult)
    requires store.Valid() && p in store.model.routes && p.origin == Manual
    modifies p`rotating, p`rotationState, p`nextRetryIn, p`consecutiveSameIP,
             p`lastIP, p`lastRotationAt, p`verifiedIPs, p`rotationCount, p`ipRevisitCount
    ensures p.View() == if result.CommittedIP? then store.model.routes[p].Committed(ip, at) else store.model.routes[p]
    ensures result.CommittedIP? <==> Accepts(store.model, p, ip)
    ensures result.CommittedIP? ==> result.revisit == store.model.routes[p].egress.Revisits(ip)
  {
    CommitAgrees(store, p, ip);
    ghost var r := store.model.routes[p];
    assert p.View() == r;
    result := store.live.CommitRotation(store.live, p, ip, at);
  }

  method CommitCandidate(store: Store, p: Proxy, ghost agent: Agent, ip: Address, at: int)
      returns (result: CommitResult)
    requires store.Valid() && p in store.model.routes && p.origin == Manual
    modifies store`model, store`run, p`rotating, p`rotationState, p`nextRetryIn, p`consecutiveSameIP,
             p`lastIP, p`lastRotationAt, p`verifiedIPs, p`rotationCount, p`ipRevisitCount
    ensures store.Valid() && store.live == old(store.live)
    ensures store.Log(agent) == old(store.Log(agent)) + [Commit(p, ip, at)]
    ensures OnlyRoute(old(store.model), store.model, p)
    ensures result.CommittedIP? ==> result.revisit in store.model.uncredited
    ensures var r := old(store.model).routes[p];
      store.model.routes[p] == if result.CommittedIP? then r.Committed(ip, at) else r
    ensures result.CommittedIP? <==> Accepts(old(store.model), p, ip)
    ensures result.CommittedIP? ==> result.revisit == old(store.model).routes[p].egress.Revisits(ip)
  {
    result := TryCommit(store, p, ip, at);
    store.Record(Commit(p, ip, at), p, agent);
  }

  /** One behind the whole list, and behind `floor`. */
  lemma BackIs(entries: seq<Proxy>, v: Views, floor: nat, back: nat)
    requires Viewed(entries, v) && back > floor && forall e :: e in entries ==> back > v[e].pass
    requires back == floor + 1 || exists e :: e in entries && back == v[e].pass + 1
    ensures back == TopPass(entries, v, floor) + 1
  {
  }

  lemma LivePasses(store: Store, p: Proxy)
    requires store.Valid() && p in store.model.routes
    ensures Viewed(store.live.entries, store.model.routes)
    ensures p.pass == store.model.routes[p].pass
    ensures forall e :: e in store.live.entries ==> e.pass == store.model.routes[e].pass
  {
    LiveViews(store);
    assert p.View() == store.model.routes[p];
    assert forall e :: e in store.live.entries ==> e.View() == store.model.routes[e];
  }

  method MarkAtBack(store: Store, p: Proxy, wait: int, run: nat)
    requires store.Valid() && p in store.model.routes && p.origin == Manual && run > 0
    modifies p`rotating, p`rotationState, p`nextRetryIn, p`consecutiveSameIP, p`pass
    ensures store.AgreesExcept(p) && p.Valid() && Viewed(store.live.entries, store.model.routes)
    ensures var r := store.model.routes[p];
      p.View() == r.(turn := r.turn.ReturnedStale(wait, run),
                     pass := TopPass(store.live.entries, store.model.routes, r.pass) + 1)
  {
    ghost var r := store.model.routes[p];
    assert p.View() == r;
    LivePasses(store, p);
    store.live.MarkStale(p, wait, run);
    BackIs(store.live.entries, store.model.routes, r.pass, p.pass);
  }

  method ReturnStale(store: Store, p: Proxy, ghost agent: Agent, wait: int, run: nat)
    requires store.Valid() && p in store.model.routes && p.origin == Manual && run > 0
    modifies store`model, store`run, p`rotating, p`rotationState, p`nextRetryIn, p`consecutiveSameIP, p`pass
    ensures store.Valid() && store.live == old(store.live)
    ensures store.Log(agent) == old(store.Log(agent)) + [StaleReturn(p, wait, run)]
    ensures OnlyRoute(old(store.model), store.model, p)
    ensures StaledRoute(old(store.model).routes[p], store.model.routes[p], wait, run)
  {
    MarkAtBack(store, p, wait, run);
    store.Record(StaleReturn(p, wait, run), p, agent);
  }

  // ---- Time, probes and the provider

  const DRAIN_POLL: int := 100_000_000

  datatype Settings = Settings(drainTimeout: int, ipCheckTimeout: int, ipCheckInterval: int,
                               ceiling: Duration, interval: Duration)
  {
    predicate Validated() {
      0 < drainTimeout && 0 < ipCheckInterval <= ipCheckTimeout && 0 < ceiling
    }
  }

  // A pause, which shutdown may cut short.
  method Sleep(now: int, d: int) returns (later: int, woke: bool)
    ensures later >= now && (woke ==> later >= now + d)
  {
    woke := *;
    var slept: nat :| slept >= 0;
    later := now + slept + if woke && d > 0 then d else 0;
  }

  // Asks which address the route's traffic leaves from.
  method ProbeIP() returns (ip: Option<Address>)
    ensures ip.Some? ==> ip.value.Literal?
  {
    var answered: bool := *;
    var number: nat :| number >= 0;
    ip := if answered then Some(Literal(number)) else None;
  }

  // The procedure must stop: shutdown, or the route left the live pool.
  method Gone(store: Store, p: Proxy) returns (gone: bool)
    ensures p !in store.live.entries ==> gone
  {
    gone := *;
    if !gone {
      var here := store.live.Contains(p);
      gone := !here;
    }
  }

  // ---- What the outcomes mean

  /** The procedure ended its attempt with a recorded commit, the route's health
      cleared and the commit counted, and did only quiet steps before. */
  ghost predicate LogsRotation(log: seq<Event>, log': seq<Event>, p: Proxy, ip: Address) {
    var n := |log'| - 3;
    0 <= n && Quietly(log, log'[..n], p) &&
    log'[n].Commit? && log'[n].p == p && log'[n].ip == ip && log'[n + 1] == Local(p, ClearHealth) &&
      log'[n + 2].Credited?
  }

  /** Its last step was the stale mark, after quiet steps. */
  ghost predicate LogsStale(log: seq<Event>, log': seq<Event>, p: Proxy, wait: int, run: nat) {
    var n := |log'| - 1;
    0 <= n && Quietly(log, log'[..n], p) && log'[n] == StaleReturn(p, wait, run)
  }

  /** One more rotation is recorded, to this address, and the route serves. */
  ghost predicate RotatedRoute(r: Route, r': Route, ip: Address) {
    ip.Literal? && r'.egress.rotationCount == r.egress.rotationCount + 1 && r'.egress.lastIP == ip &&
    r'.turn.state == Idle && r'.turn.sameIP == 0 && !r'.turn.rotating
  }

  ghost predicate RotatedTo(s: Snap, s': Snap, ip: Address) {
    s'.p == s.p && RotatedRoute(s.r, s'.r, ip) && LogsRotation(s.log, s'.log, s.p, ip)
  }

  /** Nothing is recorded; the route serves again, marked stale, and shows the wait. */
  ghost predicate StaledRoute(r: Route, r': Route, wait: int, run: nat) {
    r'.egress.rotationCount == r.egress.rotationCount && r'.turn.state == Stale && r'.turn.sameIP == run > 0 &&
    r'.turn.nextRetryIn == wait && !r'.turn.rotating
  }

  ghost predicate Staled(s: Snap, s': Snap, wait: int, run: nat) {
    s'.p == s.p && StaledRoute(s.r, s'.r, wait, run) && LogsStale(s.log, s'.log, s.p, wait, run)
  }

  /** Up to its outcome a procedure leaves no record. */
  ghost predicate Pending(s: Snap, s': Snap) {
    s'.p == s.p && s'.r.egress.rotationCount == s.r.egress.rotationCount && s'.r.turn.sameIP == s.r.turn.sameIP &&
    (s'.r.egress.lastIP == s.r.egress.lastIP || s.r.egress.lastIP == UNKNOWN) && Quietly(s.log, s'.log, s.p)
  }

  /** Not an address that would mean the provider kept it: the baseline, or
      without one the route's last address. */
  ghost predicate Fresh(r: Route, baseline: Option<Address>, ip: Address) {
    if baseline.Some? then ip != baseline.value else r.egress.lastIP == UNKNOWN || ip != r.egress.lastIP
  }

  /** The engine tries the route again at that time. */
  ghost predicate DueAt(engine: Engine, p: Proxy, when: int)
    reads engine`due
  {
    IdOf(p) in engine.due && engine.due[IdOf(p)] == when
  }

  /** How many attempts in a row did not change the address. */
  ghost function KeptSoFar(engine: Engine, p: Proxy): nat
    reads engine
  {
    if IdOf(p) in engine.consec then engine.consec[IdOf(p)] else 0
  }

  // How a procedure ended for the route's record; `at` is when it gave up on a
  // changed address.
  datatype Outcome =
    | Unrecorded
    | Rotated(ip: Address, baseline: Option<Address>)
    | Kept(wait: Duration, run: nat, at: int)

  /** What each outcome means for the route: at most one of a commit and a
      stale mark is recorded. */
  ghost predicate Ended(s: Snap, s': Snap, ceiling: Duration, o: Outcome) {
    match o
    case Unrecorded => Pending(s, s')
    case Rotated(ip, baseline) => RotatedTo(s, s', ip) && Fresh(s.r, baseline, ip)
    case Kept(wait, run, _) => Staled(s, s', wait as int, run) && 0 < wait <= ceiling
  }

  /** ... possibly with giving up added behind it. */
  ghost predicate Finished(s: Snap, s': Snap, ceiling: Duration, o: Outcome) {
    Ended(s, s', ceiling, o) ||
    (o.Rotated? && RotatedRoute(s.r, s'.r, o.ip) && Fresh(s.r, o.baseline, o.ip) && s'.log != [] &&
     s'.log[|s'.log| - 1] == Local(s.p, Abandon) && LogsRotation(s.log, s'.log[..|s'.log| - 1], s.p, o.ip))
  }

  // ---- Composing what is left of a route

  lemma RouteUndisturbedTwice(a: Route, b: Route, c: Route)
    requires RouteUndisturbed(a, b) && RouteUndisturbed(b, c)
    ensures RouteUndisturbed(a, c)
  {
  }

  lemma QuietlyTwice(a: seq<Event>, b: seq<Event>, c: seq<Event>, p: Proxy)
    requires Quietly(a, b, p) && Quietly(b, c, p)
    ensures Quietly(a, c, p)
  {
  }

  lemma PendingTwice(a: Snap, b: Snap, c: Snap)
    requires Pending(a, b) && Pending(b, c)
    ensures Pending(a, c)
  {
    QuietlyTwice(a.log, b.log, c.log, a.p);
  }

  /** A quiet step of the procedure's own that changes its turn only. */
  ghost predicate QuietStep(s: Snap, s': Snap) {
    s'.p == s.p && s'.r == s.r.(turn := s'.r.turn) && s'.r.turn.sameIP == s.r.turn.sameIP &&
    |s'.log| == |s.log| + 1 && s'.log[..|s.log|] == s.log && Quiet(s'.log[|s.log|], s.p)
  }

  lemma StepThenOthers(a: Snap, b: Snap, c: Snap)
    requires QuietStep(a, b) && Undisturbed(b, c)
    ensures Pending(a, c)
  {
    assert Quietly(a.log, b.log, a.p);
    QuietlyTwice(a.log, b.log, c.log, a.p);
  }

  lemma LaterRotation(a: Snap, b: Snap, c: Snap, ip: Address)
    requires Pending(a, b) && RotatedTo(b, c, ip)
    ensures RotatedTo(a, c, ip)
  {
    QuietlyTwice(a.log, b.log, c.log[..|c.log| - 3], a.p);
  }

  lemma LaterStale(a: Snap, b: Snap, c: Snap, wait: int, run: nat)
    requires Pending(a, b) && Staled(b, c, wait, run)
    ensures Staled(a, c, wait, run)
  {
    QuietlyTwice(a.log, b.log, c.log[..|c.log| - 1], a.p);
  }

  /** An outcome is the same seen from before some quiet steps. */
  lemma EndedFrom(a: Snap, b: Snap, c: Snap, ceiling: Duration, o: Outcome)
    requires Pending(a, b) && Ended(b, c, ceiling, o)
    ensures Ended(a, c, ceiling, o)
  {
    match o
    case Unrecorded => PendingTwice(a, b, c);
    case Rotated(ip, _) => LaterRotation(a, b, c, ip);
    case Kept(wait, run, _) => LaterStale(a, b, c, wait as int, run);
  }

  /** A committed route stays as committed while others run. */
  lemma RotatedStays(a: Snap, b: Snap, c: Snap, ip: Address)
    requires RotatedTo(a, b, ip) && RouteUndisturbed(b.r, c.r) && c.p == b.p && c.log == b.log
    ensures RotatedTo(a, c, ip)
  {
  }

  // ---- The phases

  // Whether to go on after others have run.
  method Meanwhile(engine: Engine, store: Store, p: Proxy, ghost me: Procedure) returns (go: bool)
    requires Ongoing(engine, store, p, me)
    modifies engine, store, store.model.routes.Keys
    ensures Ongoing(engine, store, p, me)
    ensures forall q :: q in store.model.routes ==> q in old(store.model).routes || fresh(q)
    ensures RouteUndisturbed(old(store.model).routes[p], store.model.routes[p])
    ensures store.Log(By(me)) == old(store.Log(By(me)))
  {
    Others(engine, store, p, me, multiset{});
    var gone := Gone(store, p);
    go := !gone;
  }

  // Waits for the route's holds to end, at most for the drain timeout.
  method Drain(engine: Engine, store: Store, p: Proxy, ghost me: Procedure, s: Settings, from: int)
      returns (go: bool, forced: bool, now: int)
    requires Ongoing(engine, store, p, me) && s.Validated()
    modifies engine, store, store.model.routes.Keys
    ensures Ongoing(engine, store, p, me)
    ensures forall q :: q in store.model.routes ==> q in old(store.model).routes || fresh(q)
    ensures RouteUndisturbed(old(store.model).routes[p], store.model.routes[p])
    ensures store.Log(By(me)) == old(store.Log(By(me)))
    ensures go && !forced ==> store.model.routes[p].inFlight <= 0
  {
    now, forced, go := from, false, true;
    var deadline := now + s.drainTimeout;
    while go && !forced && p.inFlight > 0
      invariant Ongoing(engine, store, p, me)
      invariant forall q :: q in store.model.routes ==> q in old(store.model).routes || fresh(q)
      invariant RouteUndisturbed(old(store.model).routes[p], store.model.routes[p])
      invariant store.Log(By(me)) == old(store.Log(By(me)))
      decreases go, deadline - now
    {
      if now >= deadline {
        forced := true;
        break;
      }
      go, now := Wait(engine, store, p, me, now);
    }
    assert p.View() == store.model.routes[p];
    var gone := Gone(store, p);
    go := go && !gone;
  }

  method Wait(engine: Engine, store: Store, p: Proxy, ghost me: Procedure, now: int) returns (go: bool, later: int)
    requires Ongoing(engine, store, p, me)
    modifies engine, store, store.model.routes.Keys
    ensures Ongoing(engine, store, p, me)
    ensures forall q :: q in store.model.routes ==> q in old(store.model).routes || fresh(q)
    ensures RouteUndisturbed(old(store.model).routes[p], store.model.routes[p])
    ensures store.Log(By(me)) == old(store.Log(By(me)))
    ensures go ==> later >= now + DRAIN_POLL
  {
    var gone := Gone(store, p);
    later, go := Sleep(now, DRAIN_POLL);
    go := go && !gone;
    Others(engine, store, p, me, multiset{});
  }

  // The route leaves service and its holds run out.
  method BeginAndDrain(engine: Engine, store: Store, p: Proxy, ghost me: Procedure, s: Settings, from: int)
      returns (go: bool, forced: bool, now: int)
    requires Ongoing(engine, store, p, me) && s.Validated()
    modifies engine, store, store.model.routes.Keys
    ensures Ongoing(engine, store, p, me)
    ensures forall q :: q in store.model.routes ==> q in old(store.model).routes || fresh(q)
    ensures Pending(old(Now(store, p, me)), Now(store, p, me))
    ensures go && !forced ==> store.model.routes[p].inFlight <= 0
  {
    ghost var was := Now(store, p, me);
    BeginOwn(engine, store, p, me);
    ghost var begun := Now(store, p, me);
    go, forced, now := Drain(engine, store, p, me, s, from);
    StepThenOthers(was, begun, Now(store, p, me));
  }

  method BeginOwn(engine: Engine, store: Store, p: Proxy, ghost me: Procedure)
    requires Ongoing(engine, store, p, me)
    modifies p`rotating, p`rotationEpoch, p`rotationState, p`nextRetryIn, store`model, store`run
    ensures Ongoing(engine, store, p, me) && store.model.routes.Keys == old(store.model).routes.Keys
    ensures QuietStep(old(Now(store, p, me)), Now(store, p, me))
  {
    ghost var w := store.model;
    Begin(store, p, By(me));
    StaysOwned(w, store.model, engine.running, me);
  }

  // A phase in which the provider or a probe is called: anything may happen
  // meanwhile to the rest of the state.
  method CallOut(engine: Engine, store: Store, p: Proxy, ghost me: Procedure, phase: RotationState) returns (go: bool)
    requires Ongoing(engine, store, p, me) && (phase == Rotating || phase == Verifying)
    modifies engine, store, store.model.routes.Keys
    ensures Ongoing(engine, store, p, me)
    ensures forall q :: q in store.model.routes ==> q in old(store.model).routes || fresh(q)
    ensures Pending(old(Now(store, p, me)), Now(store, p, me))
  {
    ghost var was := Now(store, p, me);
    ShowPhase(engine, store, p, me, phase);
    ghost var shown := Now(store, p, me);
    go := Meanwhile(engine, store, p, me);
    StepThenOthers(was, shown, Now(store, p, me));
  }

  method ShowPhase(engine: Engine, store: Store, p: Proxy, ghost me: Procedure, phase: RotationState)
    requires Ongoing(engine, store, p, me) && (phase == Rotating || phase == Verifying)
    modifies p`rotationState, store`model, store`run
    ensures Ongoing(engine, store, p, me) && store.model.routes.Keys == old(store.model).routes.Keys
    ensures QuietStep(old(Now(store, p, me)), Now(store, p, me))
  {
    ghost var w := store.model;
    EnterPhase(store, p, By(me), phase);
    StaysOwned(w, store.model, engine.running, me);
  }

  // Baseline and provider call, in the rotating phase.
  method AskProvider(engine: Engine, store: Store, p: Proxy, ghost me: Procedure)
      returns (go: bool, baseline: Option<Address>, apiFailed: bool)
    requires Ongoing(engine, store, p, me)
    modifies engine, store, store.model.routes.Keys
    ensures Ongoing(engine, store, p, me)
    ensures forall q :: q in store.model.routes ==> q in old(store.model).routes || fresh(q)
    ensures Pending(old(Now(store, p, me)), Now(store, p, me))
  {
    go := CallOut(engine, store, p, me, Rotating);
    baseline := ProbeIP();
    apiFailed := *;
    if go {
      go := Meanwhile(engine, store, p, me);
    }
  }

  method Prepare(engine: Engine, store: Store, p: Proxy, ghost me: Procedure, s: Settings, from: int)
      returns (go: bool, baseline: Option<Address>, apiFailed: bool, now: int)
    requires Ongoing(engine, store, p, me) && s.Validated()
    modifies engine, store, store.model.routes.Keys
    ensures Ongoing(engine, store, p, me)
    ensures forall q :: q in store.model.routes ==> q in old(store.model).routes || fresh(q)
    ensures Pending(old(Now(store, p, me)), Now(store, p, me))
  {
    ghost var was := Now(store, p, me);
    var forced;
    go, forced, now := BeginAndDrain(engine, store, p, me, s, from);
    baseline, apiFailed := None, false;
    ghost var drained := Now(store, p, me);
    if go {
      go, baseline, apiFailed := AskProvider(engine, store, p, me);
      PendingTwice(was, drained, Now(store, p, me));
    }
  }

  // ---- Verification

  datatype CommitOutcome = Done | CommitAborted | LateCollision

  /** What a look at the egress address leaves. */
  ghost predicate LookedAt(s: Snap, s': Snap, baseline: Option<Address>, changed: Option<Address>) {
    if changed.Some? then RotatedTo(s, s', changed.value) && Fresh(s.r, baseline, changed.value) else Pending(s, s')
  }

  lemma LookedFrom(a: Snap, b: Snap, c: Snap, baseline: Option<Address>, changed: Option<Address>)
    requires Pending(a, b) && LookedAt(b, c, baseline, changed)
    ensures LookedAt(a, c, baseline, changed)
  {
    if changed.Some? {
      LaterRotation(a, b, c, changed.value);
    } else {
      PendingTwice(a, b, c);
    }
  }

  // Records a candidate that survived the screen, if it still may be.
  method CommitIP(engine: Engine, store: Store, p: Proxy, ghost me: Procedure, s: Settings, ip: Address, at: int)
      returns (result: CommitOutcome, now: int)
    requires Ongoing(engine, store, p, me) && ip.Literal?
    modifies engine, store, store.model.routes.Keys
    ensures Ongoing(engine, store, p, me)
    ensures forall q :: q in store.model.routes ==> q in old(store.model).routes || fresh(q)
    ensures IsCommit(old(Now(store, p, me)), Now(store, p, me), ip, result)
    ensures result.Done? ==> now >= at && DueAt(engine, p, now + s.interval as int)
  {
    var gone := Gone(store, p);
    if gone {
      return CommitAborted, at;
    }
    result, now := CommitSoon(engine, store, p, me, s, ip, at);
  }

  method CommitSoon(engine: Engine, store: Store, p: Proxy, ghost me: Procedure, s: Settings, ip: Address, at: int)
      returns (result: CommitOutcome, now: int)
    requires Ongoing(engine, store, p, me) && ip.Literal?
    modifies engine, store, store.model.routes.Keys
    ensures Ongoing(engine, store, p, me)
    ensures forall q :: q in store.model.routes ==> q in old(store.model).routes || fresh(q)
    ensures IsCommit(old(Now(store, p, me)), Now(store, p, me), ip, result)
    ensures result.Done? ==> now >= at && DueAt(engine, p, now + s.interval as int)
  {
    ghost var was := Now(store, p, me);
    Others(engine, store, p, me, multiset{});
    ghost var before := Now(store, p, me);
    result, now := CommitNow(engine, store, p, me, s, ip, at);
    CommitFrom(was, before, Now(store, p, me), ip, result);
  }

  ghost predicate IsCommit(s: Snap, s': Snap, ip: Address, result: CommitOutcome) {
    if result.Done? then RotatedTo(s, s', ip) else Pending(s, s')
  }

  lemma CommitFrom(a: Snap, b: Snap, c: Snap, ip: Address, result: CommitOutcome)
    requires Pending(a, b) && IsCommit(b, c, ip, result)
    ensures IsCommit(a, c, ip, result)
  {
    if result.Done? {
      LaterRotation(a, b, c, ip);
    } else {
      PendingTwice(a, b, c);
    }
  }

  method CommitNow(engine: Engine, store: Store, p: Proxy, ghost me: Procedure, s: Settings, ip: Address, at: int)
      returns (result: CommitOutcome, now: int)
    requires Ongoing(engine, store, p, me) && ip.Literal?
    modifies engine, store, store.model.routes.Keys
    ensures Ongoing(engine, store, p, me)
    ensures forall q :: q in store.model.routes ==> q in old(store.model).routes || fresh(q)
    ensures IsCommit(old(Now(store, p, me)), Now(store, p, me), ip, result)
    ensures result.Done? ==> now >= at && DueAt(engine, p, now + s.interval as int)
  {
    ghost var was := Now(store, p, me);
    var commit := CommitOwn(engine, store, p, me, ip, at);
    ghost var committed := Now(store, p, me);
    now := at;
    match commit {
      case RouteGone => result := CommitAborted;
      case Collision => result := LateCollision;
      case CommittedIP(revisit) =>
        now := Settle(engine, store, p, me, s, revisit, at);
        CommitSettled(was, committed, Now(store, p, me), ip, at, revisit);
        result := Done;
    }
  }

  lemma CommitSettled(was: Snap, committed: Snap, s: Snap, ip: Address, at: int, revisit: bool)
    requires committed == Snap(was.p, was.r.Committed(ip, at), was.log + [Commit(was.p, ip, at)]) && ip.Literal?
    requires s.p == was.p && RouteUndisturbed(committed.r, s.r)
    requires s.log == committed.log + [Local(was.p, ClearHealth)] + [Credited(revisit)]
    ensures RotatedTo(was, s, ip)
  {
    assert s.log[..|was.log|] == was.log;
  }

  method CommitOwn(engine: Engine, store: Store, p: Proxy, ghost me: Procedure, ip: Address, at: int)
      returns (result: CommitResult)
    requires Ongoing(engine, store, p, me)
    modifies store`model, store`run, p`rotating, p`rotationState, p`nextRetryIn, p`consecutiveSameIP,
             p`lastIP, p`lastRotationAt, p`verifiedIPs, p`rotationCount, p`ipRevisitCount
    ensures Ongoing(engine, store, p, me) && store.model.routes.Keys == old(store.model).routes.Keys
    ensures result.CommittedIP? ==> result.revisit in store.model.uncredited
    ensures store.Log(By(me)) == old(store.Log(By(me))) + [Commit(p, ip, at)]
    ensures var r := old(store.model).routes[p];
      store.model.routes[p] == if result.CommittedIP? then r.Committed(ip, at) else r
  {
    ghost var w := store.model;
    result := CommitCandidate(store, p, By(me), ip, at);
    StaysOwned(w, store.model, engine.running, me);
  }

  // What follows a commit: the old address's health is dropped, the engine's
  // counters move, and the next rotation is due.
  method Settle(engine: Engine, store: Store, p: Proxy, ghost me: Procedure, s: Settings, revisit: bool, at: int)
      returns (now: int)
    requires Ongoing(engine, store, p, me) && revisit in store.model.uncredited
    modifies engine, store, store.model.routes.Keys
    ensures Ongoing(engine, store, p, me) && now >= at && DueAt(engine, p, now + s.interval as int)
    ensures forall q :: q in store.model.routes ==> q in old(store.model).routes || fresh(q)
    ensures RouteUndisturbed(old(store.model).routes[p], store.model.routes[p])
    ensures store.Log(By(me)) == old(store.Log(By(me))) + [Local(p, ClearHealth)] + [Credited(revisit)]
  {
    Others(engine, store, p, me, multiset{revisit});
    ClearThenOthers(engine, store, p, me, revisit);
    var passed: nat :| passed >= 0;
    now := at + passed;
    CreditAndReschedule(engine, store, p, me, revisit, now + s.interval as int);
  }

  method ClearThenOthers(engine: Engine, store: Store, p: Proxy, ghost me: Procedure, revisit: bool)
    requires Ongoing(engine, store, p, me) && revisit in store.model.uncredited
    modifies engine, store, store.model.routes.Keys
    ensures Ongoing(engine, store, p, me) && multiset{revisit} <= store.model.uncredited
    ensures forall q :: q in store.model.routes ==> q in old(store.model).routes || fresh(q)
    ensures RouteUndisturbed(old(store.model).routes[p], store.model.routes[p])
    ensures store.Log(By(me)) == old(store.Log(By(me))) + [Local(p, ClearHealth)]
  {
    ghost var r := store.model.routes[p];
    ClearRecord(engine, store, p, me, revisit);
    ghost var cleared := store.model.routes[p];
    Others(engine, store, p, me, multiset{revisit});
    RouteUndisturbedTwice(r, cleared, store.model.routes[p]);
  }

  method ClearRecord(engine: Engine, store: Store, p: Proxy, ghost me: Procedure, revisit: bool)
    requires Ongoing(engine, store, p, me) && revisit in store.model.uncredited
    modifies engine`consec, store`model, store`run, p`consecutiveFailures, p`cooldownUntil, p`targetCool, p`targetPairs
    ensures Ongoing(engine, store, p, me) && multiset{revisit} <= store.model.uncredited
    ensures store.model.routes.Keys == old(store.model).routes.Keys && IdOf(p) !in engine.consec
    ensures RouteUndisturbed(old(store.model).routes[p], store.model.routes[p])
    ensures store.Log(By(me)) == old(store.Log(By(me))) + [Local(p, ClearHealth)]
  {
    ClearHealthOwn(engine, store, p, me);
    ForgetKept(engine, store, p, me);
  }

  method ClearHealthOwn(engine: Engine, store: Store, p: Proxy, ghost me: Procedure)
    requires Ongoing(engine, store, p, me)
    modifies store`model, store`run, p`consecutiveFailures, p`cooldownUntil, p`targetCool, p`targetPairs
    ensures Ongoing(engine, store, p, me) && store.model.uncredited == old(store.model).uncredited
    ensures store.model.routes.Keys == old(store.model).routes.Keys
    ensures RouteUndisturbed(old(store.model).routes[p], store.model.routes[p])
    ensures store.Log(By(me)) == old(store.Log(By(me))) + [Local(p, ClearHealth)]
  {
    ghost var w := store.model;
    ClearDialHealth(store, p, By(me));
    StaysOwned(w, store.model, engine.running, me);
  }

  method ForgetKept(engine: Engine, store: Store, p: Proxy, ghost me: Procedure)
    requires Ongoing(engine, store, p, me)
    modifies engine`consec
    ensures Ongoing(engine, store, p, me) && IdOf(p) !in engine.consec
  {
    engine.ClearConsecutive(IdOf(p));
  }

  method CreditAndReschedule(engine: Engine, store: Store, p: Proxy, ghost me: Procedure, revisit: bool, next: int)
    requires Ongoing(engine, store, p, me) && revisit in store.model.uncredited
    modifies engine`due, store`model, store`run
    ensures Ongoing(engine, store, p, me) && DueAt(engine, p, next)
    ensures store.model.routes == old(store.model).routes
    ensures store.Log(By(me)) == old(store.Log(By(me))) + [Credited(revisit)]
  {
    store.Credit(revisit, By(me));
    Reschedule(engine, store, p, me, next);
  }

  method Reschedule(engine: Engine, store: Store, p: Proxy, ghost me: Procedure, at: int)
    requires Ongoing(engine, store, p, me)
    modifies engine`due
    ensures Ongoing(engine, store, p, me) && DueAt(engine, p, at) && Now(store, p, me) == old(Now(store, p, me))
  {
    engine.SetDue(IdOf(p), at);
  }

  // One look at the egress address: committed when it is an acceptable change.
  method TryCandidate(engine: Engine, store: Store, p: Proxy, ghost me: Procedure, s: Settings,
                      baseline: Option<Address>, at: int)
      returns (changed: Option<Address>, stop: bool)
    requires Ongoing(engine, store, p, me)
    modifies engine, store, store.model.routes.Keys
    ensures Ongoing(engine, store, p, me)
    ensures forall q :: q in store.model.routes ==> q in old(store.model).routes || fresh(q)
    ensures LookedAt(old(Now(store, p, me)), Now(store, p, me), baseline, changed)
  {
    changed, stop := None, false;
    var ip := ProbeIP();
    if ip.None? {
      return;
    }
    assert p.View() == store.model.routes[p];
    if (baseline.Some? && ip == baseline) || (baseline.None? && ip.value == p.lastIP) {
      return;
    }
    var held := store.live.LastIPs(p);
    if ip.value in held {
      return;
    }
    var outcome, later := CommitIP(engine, store, p, me, s, ip.value, at);
    changed := if outcome.Done? then ip else None;
    stop := outcome.CommitAborted?;
  }

  method Look(engine: Engine, store: Store, p: Proxy, ghost me: Procedure, s: Settings, baseline: Option<Address>,
              at: int)
      returns (changed: Option<Address>, stop: bool)
    requires Ongoing(engine, store, p, me)
    modifies engine, store, store.model.routes.Keys
    ensures Ongoing(engine, store, p, me)
    ensures forall q :: q in store.model.routes ==> q in old(store.model).routes || fresh(q)
    ensures LookedAt(old(Now(store, p, me)), Now(store, p, me), baseline, changed)
  {
    ghost var was := Now(store, p, me);
    Others(engine, store, p, me, multiset{});
    ghost var seen := Now(store, p, me);
    changed, stop := TryCandidate(engine, store, p, me, s, baseline, at);
    LookedFrom(was, seen, Now(store, p, me), baseline, changed);
  }

  // Polls until a candidate is committed, or the window closes; a single look
  // when the provider call failed.
  method Verify(engine: Engine, store: Store, p: Proxy, ghost me: Procedure, s: Settings, baseline: Option<Address>,
                apiFailed: bool, from: int)
      returns (changed: Option<Address>, now: int)
    requires Ongoing(engine, store, p, me) && s.Validated()
    modifies engine, store, store.model.routes.Keys
    ensures Ongoing(engine, store, p, me) && now >= from
    ensures forall q :: q in store.model.routes ==> q in old(store.model).routes || fresh(q)
    ensures LookedAt(old(Now(store, p, me)), Now(store, p, me), baseline, changed)
  {
    var deadline, first, stop := from + s.ipCheckTimeout, true, false;
    now, changed := from, None;
    ghost var was := Now(store, p, me);
    while changed.None? && !stop
      invariant Ongoing(engine, store, p, me) && now >= from
      invariant forall q :: q in store.model.routes ==> q in old(store.model).routes || fresh(q)
      invariant LookedAt(was, Now(store, p, me), baseline, changed)
      decreases !stop, first, if changed.None? then 1 else 0, deadline - now
    {
      var proceed;
      proceed, now := NextAttempt(s, apiFailed, first, now, deadline);
      first, stop := false, !proceed;
      if proceed {
        ghost var before := Now(store, p, me);
        changed, stop := Look(engine, store, p, me, s, baseline, now);
        LookedFrom(was, before, Now(store, p, me), baseline, changed);
      }
    }
  }

  // Whether to look again, after the pause between two looks.
  method NextAttempt(s: Settings, apiFailed: bool, first: bool, now: int, deadline: int)
      returns (proceed: bool, later: int)
    requires s.Validated()
    ensures later >= now && (proceed && !first ==> !apiFailed && now < later < deadline)
  {
    proceed, later := *, now;
    if first || !proceed || apiFailed {
      proceed := proceed && first;
      return;
    }
    var pause := Min(s.ipCheckInterval, deadline - now);
    later, proceed := Sleep(now, pause);
    proceed := proceed && later < deadline;
  }

  method VerifyPhase(engine: Engine, store: Store, p: Proxy, ghost me: Procedure, s: Settings,
                     baseline: Option<Address>, apiFailed: bool, from: int)
      returns (changed: Option<Address>, now: int)
    requires Ongoing(engine, store, p, me) && s.Validated()
    modifies engine, store, store.model.routes.Keys
    ensures Ongoing(engine, store, p, me) && now >= from
    ensures forall q :: q in store.model.routes ==> q in old(store.model).routes || fresh(q)
    ensures LookedAt(old(Now(store, p, me)), Now(store, p, me), baseline, changed)
  {
    ghost var was := Now(store, p, me);
    var ignored := CallOut(engine, store, p, me, Verifying);
    ghost var before := Now(store, p, me);
    changed, now := Verify(engine, store, p, me, s, baseline, apiFailed, from);
    LookedFrom(was, before, Now(store, p, me), baseline, changed);
  }

  method VerifyAndCheck(engine: Engine, store: Store, p: Proxy, ghost me: Procedure, s: Settings,
                        baseline: Option<Address>, apiFailed: bool, from: int)
      returns (changed: Option<Address>, go: bool, now: int)
    requires Ongoing(engine, store, p, me) && s.Validated()
    modifies engine, store, store.model.routes.Keys
    ensures Ongoing(engine, store, p, me) && now >= from
    ensures forall q :: q in store.model.routes ==> q in old(store.model).routes || fresh(q)
    ensures LookedAt(old(Now(store, p, me)), Now(store, p, me), baseline, changed)
  {
    ghost var was := Now(store, p, me);
    changed, now := VerifyPhase(engine, store, p, me, s, baseline, apiFailed, from);
    ghost var after := Now(store, p, me);
    go := Meanwhile(engine, store, p, me);
    LookedThenOthers(was, after, Now(store, p, me), baseline, changed);
  }

  lemma LookedThenOthers(a: Snap, b: Snap, c: Snap, baseline: Option<Address>, changed: Option<Address>)
    requires LookedAt(a, b, baseline, changed) && RouteUndisturbed(b.r, c.r) && c.p == b.p && c.log == b.log
    ensures LookedAt(a, c, baseline, changed)
  {
    if changed.Some? {
      RotatedStays(a, b, c, changed.value);
    }
  }

  // ---- The whole procedure

  // The address did not change: the route returns to serving, marked stale,
  // with a bounded wait before the next attempt.
  method KeepAddress(engine: Engine, store: Store, p: Proxy, ghost me: Procedure, s: Settings, hint: Duration,
                     factor: real, undefined: Duration, now: int)
      returns (wait: Duration, run: nat)
    requires Ongoing(engine, store, p, me) && s.Validated() && 0.0 <= factor < 1.0
    modifies engine`due, engine`consec, store`model, store`run,
             p`rotating, p`rotationState, p`nextRetryIn, p`consecutiveSameIP, p`pass
    ensures Ongoing(engine, store, p, me) && store.model.routes.Keys == old(store.model).routes.Keys
    ensures Staled(old(Now(store, p, me)), Now(store, p, me), wait as int, run)
    ensures DueAt(engine, p, now + wait as int) && IsRetryWait(wait, hint, s.interval, run, s.ceiling, undefined)
    ensures engine.consec == old(engine.consec)[IdOf(p) := run] && run == old(KeptSoFar(engine, p)) + 1
  {
    wait, run := NextWait(engine, store, p, me, s, hint, factor, undefined);
    StaleUntil(engine, store, p, me, wait as int, run, now);
  }

  method StaleUntil(engine: Engine, store: Store, p: Proxy, ghost me: Procedure, wait: int, run: nat, now: int)
    requires Ongoing(engine, store, p, me) && run > 0
    modifies engine`due, store`model, store`run,
             p`rotating, p`rotationState, p`nextRetryIn, p`consecutiveSameIP, p`pass
    ensures Ongoing(engine, store, p, me) && store.model.routes.Keys == old(store.model).routes.Keys
    ensures Staled(old(Now(store, p, me)), Now(store, p, me), wait, run) && DueAt(engine, p, now + wait)
    ensures unchanged(engine`consec)
  {
    StaleNow(engine, store, p, me, wait, run);
    Reschedule(engine, store, p, me, now + wait);
  }

  method StaleNow(engine: Engine, store: Store, p: Proxy, ghost me: Procedure, wait: int, run: nat)
    requires Ongoing(engine, store, p, me) && run > 0
    modifies store`model, store`run, p`rotating, p`rotationState, p`nextRetryIn, p`consecutiveSameIP, p`pass
    ensures Ongoing(engine, store, p, me) && store.model.routes.Keys == old(store.model).routes.Keys
    ensures Staled(old(Now(store, p, me)), Now(store, p, me), wait, run)
  {
    ghost var was := Now(store, p, me);
    StaleOwn(engine, store, p, me, wait, run);
    StaleLogged(was.log, p, wait, run);
  }

  method StaleOwn(engine: Engine, store: Store, p: Proxy, ghost me: Procedure, wait: int, run: nat)
    requires Ongoing(engine, store, p, me) && run > 0
    modifies store`model, store`run, p`rotating, p`rotationState, p`nextRetryIn, p`consecutiveSameIP, p`pass
    ensures Ongoing(engine, store, p, me) && store.model.routes.Keys == old(store.model).routes.Keys
    ensures StaledRoute(old(store.model).routes[p], store.model.routes[p], wait, run)
    ensures store.Log(By(me)) == old(store.Log(By(me))) + [StaleReturn(p, wait, run)]
  {
    ghost var w := store.model;
    ReturnStale(store, p, By(me), wait, run);
    StaysOwned(w, store.model, engine.running, me);
  }

  lemma StaleLogged(log: seq<Event>, p: Proxy, wait: int, run: nat)
    ensures LogsStale(log, log + [StaleReturn(p, wait, run)], p, wait, run)
  {
    assert (log + [StaleReturn(p, wait, run)])[..|log|] == log;
  }

  method NextWait(engine: Engine, store: Store, p: Proxy, ghost me: Procedure, s: Settings, hint: Duration,
                  factor: real, undefined: Duration)
      returns (wait: Duration, run: nat)
    requires Ongoing(engine, store, p, me) && s.Validated() && 0.0 <= factor < 1.0
    modifies engine`consec
    ensures Ongoing(engine, store, p, me) && IsRetryWait(wait, hint, s.interval, run, s.ceiling, undefined)
    ensures engine.consec == old(engine.consec)[IdOf(p) := run] && run == old(KeptSoFar(engine, p)) + 1
    ensures Now(store, p, me) == old(Now(store, p, me))
  {
    run := engine.BumpConsecutive(IdOf(p));
    wait := RetryWait(hint, s.interval, run, s.ceiling, factor, undefined);
  }

  // Verification and the record of its outcome.
  method Conclude(engine: Engine, store: Store, p: Proxy, ghost me: Procedure, s: Settings, baseline: Option<Address>,
                  apiFailed: bool, factor: real, undefined: Duration, from: int)
      returns (aborted: bool, o: Outcome)
    requires Ongoing(engine, store, p, me) && s.Validated() && 0.0 <= factor < 1.0
    modifies engine, store, store.model.routes.Keys
    ensures Ongoing(engine, store, p, me)
    ensures forall q :: q in store.model.routes ==> q in old(store.model).routes || fresh(q)
    ensures Ended(old(Now(store, p, me)), Now(store, p, me), s.ceiling, o)
    ensures aborted ==> !o.Kept?
    ensures !aborted ==>
      !store.model.routes[p].turn.rotating && (o.Kept? ==> o.at >= from && DueAt(engine, p, o.at + o.wait as int))
  {
    ghost var was := Now(store, p, me);
    var changed, go, now := VerifyAndCheck(engine, store, p, me, s, baseline, apiFailed, from);
    if changed.Some? {
      return !go, Rotated(changed.value, baseline);
    }
    if !go {
      return true, Unrecorded;
    }
    ghost var seen := Now(store, p, me);
    var hint: Duration := *;
    var wait, run := KeepAddress(engine, store, p, me, s, hint, factor, undefined, now);
    LaterStale(was, seen, Now(store, p, me), wait as int, run);
    return false, Kept(wait, run, now);
  }

  method Rotate(engine: Engine, store: Store, p: Proxy, ghost me: Procedure, s: Settings, factor: real,
                undefined: Duration, from: int)
      returns (aborted: bool, o: Outcome)
    requires Ongoing(engine, store, p, me) && s.Validated() && 0.0 <= factor < 1.0
    modifies engine, store, store.model.routes.Keys
    ensures Ongoing(engine, store, p, me)
    ensures forall q :: q in store.model.routes ==> q in old(store.model).routes || fresh(q)
    ensures Ended(old(Now(store, p, me)), Now(store, p, me), s.ceiling, o)
    ensures aborted ==> !o.Kept?
    ensures !aborted ==> !store.model.routes[p].turn.rotating && (o.Kept? ==> DueAt(engine, p, o.at + o.wait as int))
  {
    ghost var was := Now(store, p, me);
    var go, baseline, apiFailed, now := Prepare(engine, store, p, me, s, from);
    if !go {
      return true, Unrecorded;
    }
    ghost var asked := Now(store, p, me);
    aborted, o := Conclude(engine, store, p, me, s, baseline, apiFailed, factor, undefined, now);
    EndedFrom(was, asked, Now(store, p, me), s.ceiling, o);
  }

  // The whole life of a procedure, from its slot to giving it back. Its route
  // is in service when it starts, by `AdmittedIdle`, and when it ends.
  method RunProcedure(engine: Engine, store: Store, p: Proxy, ghost me: Procedure, s: Settings, factor: real,
                      undefined: Duration, from: int)
      returns (o: Outcome)
    requires Ongoing(engine, store, p, me) && s.Validated() && 0.0 <= factor < 1.0
    requires p !in OutOfService(store.model)
    modifies engine, store, store.model.routes.Keys
    ensures store.Valid() && engine.Valid() && me !in engine.running && RotatingOwned(store.model, engine.running)
    ensures p in store.model.routes && p !in OutOfService(store.model)
    ensures Finished(old(Now(store, p, me)), Now(store, p, me), s.ceiling, o)
    ensures o.Kept? ==> DueAt(engine, p, o.at + o.wait as int)
  {
    o := RotateUnlessGone(engine, store, p, me, s, factor, undefined, from);
    GiveSlotBack(engine, store, p, me);
  }

  method GiveSlotBack(engine: Engine, store: Store, p: Proxy, ghost me: Procedure)
    requires Ongoing(engine, store, p, me) && p !in OutOfService(store.model)
    modifies engine`active, engine`running
    ensures store.Valid() && engine.Valid() && me !in engine.running && RotatingOwned(store.model, engine.running)
    ensures Now(store, p, me) == old(Now(store, p, me)) && engine.due == old(engine.due)
  {
    EndedOwned(store.model, engine.running, me);
    engine.FinishProcedure(me, IdOf(p), p);
  }

  method RotateUnlessGone(engine: Engine, store: Store, p: Proxy, ghost me: Procedure, s: Settings, factor: real,
                          undefined: Duration, from: int)
      returns (o: Outcome)
    requires Ongoing(engine, store, p, me) && s.Validated() && 0.0 <= factor < 1.0
    requires !store.model.routes[p].turn.rotating
    modifies engine, store, store.model.routes.Keys
    ensures Ongoing(engine, store, p, me) && !store.model.routes[p].turn.rotating
    ensures Finished(old(Now(store, p, me)), Now(store, p, me), s.ceiling, o)
    ensures o.Kept? ==> DueAt(engine, p, o.at + o.wait as int)
  {
    ghost var was := Now(store, p, me);
    var gone := Gone(store, p);
    if gone {
      return Unrecorded;
    }
    var aborted;
    aborted, o := Rotate(engine, store, p, me, s, factor, undefined, from);
    if aborted {
      GiveUp(engine, store, p, me, s, was, o);
    }
  }

  // The procedure aborted: whatever phase is shown is cleared.
  method GiveUp(engine: Engine, store: Store, p: Proxy, ghost me: Procedure, ghost s: Settings, ghost was: Snap,
                ghost o: Outcome)
    requires Ongoing(engine, store, p, me) && Ended(was, Now(store, p, me), s.ceiling, o) && !o.Kept?
    modifies p`rotating, p`rotationState, p`nextRetryIn, store`model, store`run
    ensures Ongoing(engine, store, p, me) && !store.model.routes[p].turn.rotating
    ensures Finished(was, Now(store, p, me), s.ceiling, o)
  {
    ghost var before := Now(store, p, me);
    AbandonOwn(engine, store, p, me);
    GivenUp(was, before, Now(store, p, me), s.ceiling, o);
  }

  method AbandonOwn(engine: Engine, store: Store, p: Proxy, ghost me: Procedure)
    requires Ongoing(engine, store, p, me)
    modifies p`rotating, p`rotationState, p`nextRetryIn, store`model, store`run
    ensures Ongoing(engine, store, p, me)
    ensures var r := old(store.model).routes[p]; store.model.routes[p] == r.(turn := r.turn.Abandoned())
    ensures store.Log(By(me)) == old(store.Log(By(me))) + [Local(p, Abandon)]
  {
    ghost var w := store.model;
    AbandonRoute(store, p, By(me));
    StaysOwned(w, store.model, engine.running, me);
  }

  lemma GivenUp(was: Snap, s: Snap, s': Snap, ceiling: Duration, o: Outcome)
    requires Ended(was, s, ceiling, o) && !o.Kept?
    requires s' == Snap(s.p, s.r.(turn := s.r.turn.Abandoned()), s.log + [Local(s.p, Abandon)])
    ensures Finished(was, s', ceiling, o)
  {
    if o.Rotated? {
      assert s'.log[..|s'.log| - 1] == s.log;
    }
  }
}
