// What every run of the shared route state keeps.
module RouteSafety {
  import opened Common
  import opened Cooldown
  import opened Routes
  import opened RoutePool
  import opened RouteRuns

  // ---- Generations

  /** A run only appends generations: whatever a request resolved against an
      older one still denotes the same routes and labels. */
  lemma {:induction false} GenerationsFrozen(w: World, events: seq<Event>, w': World)
    requires w.Valid() && Reaches(w, events, w')
    ensures w'.Valid() && w.gens <= w'.gens && w.routes.Keys <= w'.routes.Keys
    decreases |events|
  {
    if events != [] {
      GenerationsFrozen(Apply(w, events[0]), events[1..], w');
    }
  }

  /** A route that left the live list never returns as the same object. */
  lemma {:induction false} GoneForGood(w: World, events: seq<Event>, w': World, p: Proxy)
    requires w.Valid() && Reaches(w, events, w')
    requires p in w.routes && p !in w.Live().entries
    ensures w'.Valid() && p !in w'.Live().entries
    decreases |events|
  {
    if events != [] {
      GoneForGood(Apply(w, events[0]), events[1..], w', p);
    }
  }

  // ---- Rotation lifecycle

  /** A manual route is held out of picks exactly while a procedure phase is
      shown, and shows stale exactly while attempts in a row kept the address. */
  ghost predicate TurnConsistent(p: Proxy, t: Turn) {
    if p.origin == Auto then t.state == NoRotation && !t.rotating else
      t.state != NoRotation && (t.rotating <==> t.state.InProcedure()) &&
      (!t.rotating ==> (t.state == Stale <==> t.sameIP > 0))
  }

  ghost predicate TurnsConsistent(w: World) {
    forall p :: p in w.routes ==> TurnConsistent(p, w.routes[p].turn)
  }

  lemma {:induction false} TurnsStayConsistent(w: World, events: seq<Event>, w': World)
    requires w.Valid() && Reaches(w, events, w') && TurnsConsistent(w)
    ensures TurnsConsistent(w')
    decreases |events|
  {
    if events != [] {
      TurnsStep(w, events[0]);
      TurnsStayConsistent(Apply(w, events[0]), events[1..], w');
    }
  }

  lemma TurnsStep(w: World, ev: Event)
    requires w.Valid() && Enabled(w, ev) && TurnsConsistent(w)
    ensures TurnsConsistent(Apply(w, ev))
  {
    RoutesAfterStep(w, ev);
    forall p | p in w.routes
      ensures TurnConsistent(p, RouteAfter(w, ev, p).turn)
    {
      TurnStep(w, ev, p);
    }
  }

  lemma TurnStep(w: World, ev: Event, p: Proxy)
    requires w.Valid() && Enabled(w, ev) && p in w.routes && TurnConsistent(p, w.routes[p].turn)
    ensures TurnConsistent(p, RouteAfter(w, ev, p).turn)
  {
  }

  /** After a terminal transition a late phase write changes nothing. */
  lemma LatePhaseInert(w: World, p: Proxy, phase: RotationState)
    requires w.Valid() && Enabled(w, Local(p, Phase(phase))) && !w.routes[p].turn.rotating
    ensures Apply(w, Local(p, Phase(phase))) == w
  {
    assert RoutesAfter(w, Local(p, Phase(phase))) == w.routes;
  }

  // ---- Drain

  /** The step returns the route from its procedure to serving. */
  ghost predicate Terminal(w: World, ev: Event, p: Proxy)
    requires w.Valid()
  {
    match ev
    case Local(q, c) => q == p && c == Abandon
    case Commit(q, ip, _) => q == p && Accepts(w, q, ip)
    case StaleReturn(q, _, _) => q == p
    case _ => false
  }

  ghost predicate NeverTerminal(w: World, events: seq<Event>, p: Proxy)
    requires w.Valid()
    decreases |events|
  {
    events == [] || (Enabled(w, events[0]) ==>
      !Terminal(w, events[0], p) && NeverTerminal(Apply(w, events[0]), events[1..], p))
  }

  /** From the beginning of a procedure to its terminal transition no hold is
      added, under any generation: once drained, the route stays drained. */
  lemma {:induction false} DrainSafety(w: World, events: seq<Event>, w': World, p: Proxy)
    requires w.Valid() && Reaches(w, events, w') && NeverTerminal(w, events, p)
    requires p in w.routes && w.routes[p].turn.rotating
    ensures p in w'.routes && w'.routes[p].turn.rotating
    ensures w'.routes[p].inFlight <= w.routes[p].inFlight
    decreases |events|
  {
    if events != [] {
      DrainStep(w, events[0], p);
      DrainSafety(Apply(w, events[0]), events[1..], w', p);
    }
  }

  lemma DrainStep(w: World, ev: Event, p: Proxy)
    requires w.Valid() && Enabled(w, ev) && !Terminal(w, ev, p)
    requires p in w.routes && w.routes[p].turn.rotating
    ensures var r := Apply(w, ev).routes[p]; r.turn.rotating && r.inFlight <= w.routes[p].inFlight
  {
    if ev.Picked? && ev.r == p {
      PickedRoute(w.gens[ev.gen].entries, w.routes, ev.ok, ev.target, ev.now, p);
    }
  }

  // ---- Egress addresses

  ghost predicate SharesAddress(v: Views, p: Proxy, q: Proxy)
    requires p in v && q in v
  {
    p != q && p.origin == Manual && q.origin == Manual && v[p].egress.lastIP == v[q].egress.lastIP != UNKNOWN
  }

  /** Two manual routes of a list may share an address only if one of them got
      it from a baseline and has not committed since. */
  ghost predicate EgressExclusive(w: World)
    requires w.Valid()
  {
    forall p, q :: p in w.Live().entries && q in w.Live().entries && SharesAddress(w.routes, p, q) ==>
      p in w.unsettled || q in w.unsettled
  }

  lemma {:induction false} EgressStaysExclusive(w: World, events: seq<Event>, w': World)
    requires w.Valid() && Reaches(w, events, w') && EgressExclusive(w)
    ensures w'.Valid() && EgressExclusive(w')
    decreases |events|
  {
    if events != [] {
      EgressStep(w, events[0]);
      EgressStaysExclusive(Apply(w, events[0]), events[1..], w');
    }
  }

  /** Only a recorded commit and a first baseline touch a route's addresses. */
  lemma EgressAfter(w: World, ev: Event, p: Proxy)
    requires w.Valid() && Enabled(w, ev) && p in w.routes
    ensures var before := w.routes[p].egress;
      RouteAfter(w, ev, p).egress ==
        if ev.Commit? && ev.p == p && Accepts(w, p, ev.ip) then before.Committed(ev.ip, ev.at)
        else if ev.Baseline? && ev.p == p then before.Baselined(ev.ip)
        else before
  {
  }

  /** An address another manual route holds is refused. */
  lemma HeldIsRefused(w: World, p: Proxy, q: Proxy)
    requires w.Valid() && q in w.Live().entries && q != p && q.origin == Manual && w.routes[q].egress.lastIP != UNKNOWN
    ensures !Accepts(w, p, w.routes[q].egress.lastIP)
  {
    assert HeldElsewhere(w.Live().entries, w.routes, p, w.routes[q].egress.lastIP);
  }

  /** A commit of one of two routes that then share an address was refused. */
  lemma SharingCommitRefused(w: World, ev: Event, p: Proxy, q: Proxy)
    requires w.Valid() && Enabled(w, ev) && ev.Commit? && ev.p == p != q && q.origin == Manual && q in w.Live().entries
    requires RouteAfter(w, ev, p).egress.lastIP == RouteAfter(w, ev, q).egress.lastIP != UNKNOWN
    ensures Apply(w, ev).unsettled == w.unsettled
    ensures w.routes[p].egress.lastIP == w.routes[q].egress.lastIP != UNKNOWN
  {
    EgressAfter(w, ev, p);
    EgressAfter(w, ev, q);
    HeldIsRefused(w, p, q);
  }

  lemma EgressPairStep(w: World, ev: Event, p: Proxy, q: Proxy)
    requires w.Valid() && Enabled(w, ev) && EgressExclusive(w)
    requires p in w.Live().entries && q in w.Live().entries
    requires p != q && p.origin == Manual && q.origin == Manual
    requires RouteAfter(w, ev, p).egress.lastIP == RouteAfter(w, ev, q).egress.lastIP != UNKNOWN
    ensures p in Apply(w, ev).unsettled || q in Apply(w, ev).unsettled
  {
    if ev.Commit? && ev.p == p {
      SharingCommitRefused(w, ev, p, q);
    } else if ev.Commit? && ev.p == q {
      SharingCommitRefused(w, ev, q, p);
    } else {
      SharingWithoutCommit(w, ev, p, q);
    }
  }

  /** Two routes that share an address without a commit of theirs shared it
      before, or one of them got it from a baseline. */
  lemma SharingWithoutCommit(w: World, ev: Event, p: Proxy, q: Proxy)
    requires w.Valid() && Enabled(w, ev) && p in w.routes && q in w.routes && !(ev.Commit? && (ev.p == p || ev.p == q))
    requires RouteAfter(w, ev, p).egress.lastIP == RouteAfter(w, ev, q).egress.lastIP != UNKNOWN
    ensures w.routes[p].egress.lastIP == w.routes[q].egress.lastIP != UNKNOWN ||
            p in Apply(w, ev).unsettled || q in Apply(w, ev).unsettled
    ensures (p in w.unsettled ==> p in Apply(w, ev).unsettled) && (q in w.unsettled ==> q in Apply(w, ev).unsettled)
  {
    EgressAfter(w, ev, p);
    EgressAfter(w, ev, q);
  }

  lemma EgressStep(w: World, ev: Event)
    requires w.Valid() && Enabled(w, ev) && EgressExclusive(w)
    ensures EgressExclusive(Apply(w, ev))
  {
    var w' := Apply(w, ev);
    RoutesAfterStep(w, ev);
    forall p, q | p in w'.Live().entries && q in w'.Live().entries && SharesAddress(w'.routes, p, q)
      ensures p in w'.unsettled || q in w'.unsettled
    {
      assert p in w.routes && q in w.routes;
      EgressPairStep(w, ev, p, q);
    }
  }

  /** A refused commit changes nothing on any route, nor any total. */
  lemma RefusedCommitInert(w: World, p: Proxy, ip: Address, at: int)
    requires w.Valid() && Enabled(w, Commit(p, ip, at)) && !Accepts(w, p, ip)
    ensures Apply(w, Commit(p, ip, at)) == w
  {
    assert RoutesAfter(w, Commit(p, ip, at)) == w.routes;
  }

  // ---- IP history

  ghost predicate LiteralOnly(ev: Event) {
    match ev
    case Commit(_, ip, _) => ip.Literal?
    case Baseline(_, ip) => ip.Literal?
    case _ => true
  }

  /** The history holds one address per rotation that was no revisit, plus the
      baseline if one took effect, and the current address is in it. */
  ghost predicate HistoryConserved(r: Route, baselined: bool) {
    var e := r.egress;
    |e.verified| == e.rotationCount - e.revisitCount + (if baselined then 1 else 0) &&
    (if e.lastIP == UNKNOWN then e.rotationCount == 0 && !baselined && e.verified == {}
     else e.lastIP.Literal? && e.lastIP.number in e.verified)
  }

  ghost predicate HistoriesConserved(w: World) {
    forall p :: p in w.routes ==> HistoryConserved(w.routes[p], p in w.baselined)
  }

  lemma {:induction false} HistoriesStayConserved(w: World, events: seq<Event>, w': World)
    requires w.Valid() && Reaches(w, events, w') && HistoriesConserved(w) && w.baselined <= w.routes.Keys
    requires forall ev :: ev in events ==> LiteralOnly(ev)
    ensures HistoriesConserved(w')
    decreases |events|
  {
    if events != [] {
      HistoryStep(w, events[0]);
      HistoriesStayConserved(Apply(w, events[0]), events[1..], w');
    }
  }

  lemma HistoryStep(w: World, ev: Event)
    requires w.Valid() && Enabled(w, ev) && HistoriesConserved(w) && w.baselined <= w.routes.Keys && LiteralOnly(ev)
    ensures HistoriesConserved(Apply(w, ev)) && Apply(w, ev).baselined <= Apply(w, ev).routes.Keys
  {
    RoutesAfterStep(w, ev);
    forall p | p in w.routes
      ensures HistoryConserved(RouteAfter(w, ev, p), p in Apply(w, ev).baselined)
    {
      RouteHistoryStep(w, ev, p);
    }
  }

  lemma RouteHistoryStep(w: World, ev: Event, p: Proxy)
    requires w.Valid() && Enabled(w, ev) && p in w.routes && LiteralOnly(ev)
    requires HistoryConserved(w.routes[p], p in w.baselined)
    ensures HistoryConserved(RouteAfter(w, ev, p), p in Apply(w, ev).baselined)
  {
    EgressAfter(w, ev, p);
    if ev.Commit? && ev.p == p {
      CommitKeepsHistory(w.routes[p], ev.ip, ev.at, p in w.baselined);
    } else if ev.Baseline? && ev.p == p {
      RememberOne(w.routes[p].egress.verified, ev.ip.number);
    }
  }

  lemma CommitKeepsHistory(r: Route, ip: Address, at: int, baselined: bool)
    requires HistoryConserved(r, baselined) && ip.Literal?
    ensures HistoryConserved(r.Committed(ip, at), baselined)
  {
    RememberOne(r.egress.verified, ip.number);
  }

  lemma RememberOne(verified: set<nat>, number: nat)
    ensures |verified + {number}| == |verified| + (if number in verified then 0 else 1)
  {
    if number in verified {
      assert verified + {number} == verified;
    }
  }

  // ---- Engine totals

  ghost function RotationCounts(v: Views): map<Proxy, int> {
    map p | p in v :: v[p].egress.rotationCount
  }

  ghost function RevisitCounts(v: Views): map<Proxy, int> {
    map p | p in v :: v[p].egress.revisitCount
  }

  /** The engine's totals lag the sums over all routes that ever existed by
      exactly the commits it has not counted yet. */
  ghost predicate TotalsAgree(w: World) {
    Total(RotationCounts(w.routes)) == w.rotations + |w.uncredited| &&
    Total(RevisitCounts(w.routes)) == w.revisits + w.uncredited[true]
  }

  lemma {:induction false} TotalsStayAgreed(w: World, events: seq<Event>, w': World)
    requires w.Valid() && Reaches(w, events, w') && TotalsAgree(w)
    ensures TotalsAgree(w')
    ensures w'.uncredited == multiset{} ==>
      Total(RotationCounts(w'.routes)) == w'.rotations && Total(RevisitCounts(w'.routes)) == w'.revisits
    decreases |events|
  {
    if events != [] {
      TotalsStep(w, events[0]);
      TotalsStayAgreed(Apply(w, events[0]), events[1..], w');
    }
  }

  lemma TotalsStep(w: World, ev: Event)
    requires w.Valid() && Enabled(w, ev) && TotalsAgree(w)
    ensures TotalsAgree(Apply(w, ev))
  {
    if ev.Commit? && Accepts(w, ev.p, ev.ip) {
      CommitTotals(w, ev);
    } else {
      OtherTotals(w, ev);
    }
  }

  lemma CommitTotals(w: World, ev: Event)
    requires w.Valid() && Enabled(w, ev) && TotalsAgree(w) && ev.Commit? && Accepts(w, ev.p, ev.ip)
    ensures TotalsAgree(Apply(w, ev))
  {
    CommitMovesSums(w, ev);
    OneMore(w.uncredited, w.routes[ev.p].egress.Revisits(ev.ip));
  }

  lemma OtherTotals(w: World, ev: Event)
    requires w.Valid() && Enabled(w, ev) && TotalsAgree(w) && !(ev.Commit? && Accepts(w, ev.p, ev.ip))
    ensures TotalsAgree(Apply(w, ev))
  {
    if ev.Credited? {
      CreditTotals(w, ev);
    } else {
      OthersKeepSums(w, ev);
    }
  }

  lemma CreditTotals(w: World, ev: Event)
    requires w.Valid() && Enabled(w, ev) && TotalsAgree(w) && ev.Credited?
    ensures TotalsAgree(Apply(w, ev))
  {
    OthersKeepSums(w, ev);
    OneLess(w.uncredited, ev.revisit);
  }

  lemma OneMore(m: multiset<bool>, b: bool)
    ensures |m + multiset{b}| == |m| + 1 && (m + multiset{b})[true] == m[true] + if b then 1 else 0
  {
  }

  lemma OneLess(m: multiset<bool>, b: bool)
    requires b in m
    ensures |m - multiset{b}| == |m| - 1 && (m - multiset{b})[true] == m[true] - if b then 1 else 0
  {
  }

  /** A recorded commit adds one to the sum of rotations, and one to the sum of
      revisits when it is one. */
  lemma CommitMovesSums(w: World, ev: Event)
    requires w.Valid() && Enabled(w, ev) && ev.Commit? && Accepts(w, ev.p, ev.ip)
    ensures Total(RotationCounts(Apply(w, ev).routes)) == Total(RotationCounts(w.routes)) + 1
    ensures Total(RevisitCounts(Apply(w, ev).routes)) ==
            Total(RevisitCounts(w.routes)) + (if w.routes[ev.p].egress.Revisits(ev.ip) then 1 else 0)
  {
    var p, v, v' := ev.p, w.routes, Apply(w, ev).routes;
    EgressesAfter(w, ev);
    assert RotationCounts(v') == RotationCounts(v)[p := v'[p].egress.rotationCount];
    TotalUpdate(RotationCounts(v), p, v'[p].egress.rotationCount);
    assert RevisitCounts(v') == RevisitCounts(v)[p := v'[p].egress.revisitCount];
    TotalUpdate(RevisitCounts(v), p, v'[p].egress.revisitCount);
  }

  /** No other step moves the sums. */
  lemma OthersKeepSums(w: World, ev: Event)
    requires w.Valid() && Enabled(w, ev) && !(ev.Commit? && Accepts(w, ev.p, ev.ip))
    ensures Total(RotationCounts(Apply(w, ev).routes)) == Total(RotationCounts(w.routes))
    ensures Total(RevisitCounts(Apply(w, ev).routes)) == Total(RevisitCounts(w.routes))
  {
    EgressesAfter(w, ev);
    TotalZeroes(RotationCounts(w.routes), RotationCounts(Apply(w, ev).routes));
    TotalZeroes(RevisitCounts(w.routes), RevisitCounts(Apply(w, ev).routes));
  }

  lemma EgressesAfter(w: World, ev: Event)
    requires w.Valid() && Enabled(w, ev)
    ensures var v, v' := w.routes, Apply(w, ev).routes;
      v.Keys <= v'.Keys && (!ev.Published? ==> v.Keys == v'.Keys) &&
      (forall p :: p in v' && p !in v ==> v'[p].egress.rotationCount == v'[p].egress.revisitCount == 0) &&
      (forall p :: p in v && !(ev.Commit? && ev.p == p && Accepts(w, p, ev.ip)) ==>
        v'[p].egress.rotationCount == v[p].egress.rotationCount &&
          v'[p].egress.revisitCount == v[p].egress.revisitCount) &&
      (ev.Commit? && Accepts(w, ev.p, ev.ip) ==> v'[ev.p].egress == v[ev.p].egress.Committed(ev.ip, ev.at))
  {
    RoutesAfterStep(w, ev);
    forall p | p in w.routes
      ensures Apply(w, ev).routes[p].egress == RouteAfter(w, ev, p).egress
    {
    }
    forall p | p in w.routes {
      EgressAfter(w, ev, p);
    }
  }

  // ---- Pair cooldowns

  /** Refused targets are named, and the deadlines they earn are representable. */
  ghost predicate NamedAndRepresentable(ev: Event) {
    ev.Local? && ev.change.Refusal? ==>
      ev.change.target != "" && ev.change.now + Max(ev.change.max, 0) < MAX_INT64
  }

  ghost predicate PairsBounded(pairs: map<string, Pair>) {
    |pairs.Keys| <= MAX_PAIRS && "" !in pairs && forall k :: k in pairs ==> pairs[k].deadline < MAX_INT64
  }

  lemma RefusalKeepsBound(pairs: map<string, Pair>, c: Change)
    requires PairsBounded(pairs) && c.Refusal? && MakesRoom(pairs, c.target, c.now, c.evicted)
    requires c.target != "" && c.now + Max(c.max, 0) < MAX_INT64
    ensures PairsBounded(Refuse(pairs, c.target, c.evicted, c.base, c.max, c.now))
  {
    if |pairs.Keys| == MAX_PAIRS {
      var k :| k in pairs;
      assert pairs[k].deadline < MAX_INT64;
    }
    CapRefusal(pairs, c);
  }

  lemma {:induction false} PairsStayBounded(w: World, events: seq<Event>, w': World)
    requires w.Valid() && Reaches(w, events, w')
    requires forall p :: p in w.routes ==> PairsBounded(w.routes[p].health.pairs)
    requires forall ev :: ev in events ==> NamedAndRepresentable(ev)
    ensures forall p :: p in w'.routes ==> PairsBounded(w'.routes[p].health.pairs)
    decreases |events|
  {
    if events != [] {
      var ev := events[0];
      RoutesAfterStep(w, ev);
      forall p | p in w.routes
        ensures PairsBounded(RouteAfter(w, ev, p).health.pairs)
      {
        PairsStep(w, ev, p);
      }
      PairsStayBounded(Apply(w, ev), events[1..], w');
    }
  }

  lemma PairsStep(w: World, ev: Event, p: Proxy)
    requires w.Valid() && Enabled(w, ev) && NamedAndRepresentable(ev)
    requires p in w.routes && PairsBounded(w.routes[p].health.pairs)
    ensures PairsBounded(RouteAfter(w, ev, p).health.pairs)
  {
    var pairs := w.routes[p].health.pairs;
    if ev.Local? && ev.p == p && ev.change.Refusal? {
      RefusalKeepsBound(pairs, ev.change);
    } else if ev.Local? && ev.p == p && ev.change.Success? {
      assert (pairs - {ev.change.target}).Keys == pairs.Keys - {ev.change.target};
    }
  }

  /** Making room in the map cannot come to nothing: something has expired, or
      the soonest entry can be told from no entry at all. */
  ghost predicate AlwaysRoom(pairs: map<string, Pair>, now: int) {
    (exists k :: k in pairs && Expired(pairs, k, now)) ||
    (!("" in pairs && Soonest(pairs, "")) && exists k :: k in pairs && pairs[k].deadline < MAX_INT64)
  }

  /** A full map stays at its cap, whatever is evicted, exactly when room can
      always be made; otherwise nothing may be evicted and it grows past the cap. */
  lemma FullMapStaysFull(pairs: map<string, Pair>, target: string, now: int, base: int, max: int)
    requires |pairs| == MAX_PAIRS && target !in pairs
    ensures AlwaysRoom(pairs, now) <==>
      forall evicted :: MakesRoom(pairs, target, now, evicted) ==>
        |Refuse(pairs, target, evicted, base, max, now).Keys| == MAX_PAIRS
    ensures !AlwaysRoom(pairs, now) ==>
      MakesRoom(pairs, target, now, {}) && |Refuse(pairs, target, {}, base, max, now).Keys| == MAX_PAIRS + 1
  {
    if AlwaysRoom(pairs, now) {
      forall evicted | MakesRoom(pairs, target, now, evicted)
        ensures |Refuse(pairs, target, evicted, base, max, now).Keys| == MAX_PAIRS
      {
        RoomForOne(pairs, target, now, evicted, base, max);
      }
    } else {
      assert Refuse(pairs, target, {}, base, max, now).Keys == pairs.Keys + {target};
    }
  }

  lemma RoomForOne(pairs: map<string, Pair>, target: string, now: int, evicted: set<string>, base: int, max: int)
    requires |pairs| == MAX_PAIRS && target !in pairs && AlwaysRoom(pairs, now) &&
      MakesRoom(pairs, target, now, evicted)
    ensures |Refuse(pairs, target, evicted, base, max, now).Keys| == MAX_PAIRS
  {
    var k :| k in pairs && evicted == {k};
    assert Refuse(pairs, target, evicted, base, max, now).Keys == (pairs.Keys - {k}) + {target};
  }

  /** With named targets only, room fails exactly when every deadline is the last
      instant and has not come. */
  lemma NamedRoom(pairs: map<string, Pair>, now: int)
    requires "" !in pairs && pairs != map[] && now < MAX_INT64
    ensures AlwaysRoom(pairs, now) <==> exists k :: k in pairs && pairs[k].deadline < MAX_INT64
  {
  }

  ghost predicate Capped(w: World) {
    forall p :: p in w.routes ==> |w.routes[p].health.pairs.Keys| <= MAX_PAIRS
  }

  /** The step refuses no new target in a full map without room. */
  ghost predicate FindsRoom(w: World, ev: Event)
    requires w.Valid() && Enabled(w, ev)
  {
    ev.Local? && ev.change.Refusal? ==>
      var pairs := w.routes[ev.p].health.pairs;
      ev.change.target in pairs || |pairs.Keys| != MAX_PAIRS || AlwaysRoom(pairs, ev.change.now)
  }

  ghost predicate AlwaysFindsRoom(w: World, events: seq<Event>)
    requires w.Valid()
    decreases |events|
  {
    events == [] || (Enabled(w, events[0]) ==>
      FindsRoom(w, events[0]) && AlwaysFindsRoom(Apply(w, events[0]), events[1..]))
  }

  /** Over every run whose refusals find room, every map stays within its cap. */
  lemma {:induction false} PairsStayCapped(w: World, events: seq<Event>, w': World)
    requires w.Valid() && Reaches(w, events, w') && Capped(w) && AlwaysFindsRoom(w, events)
    ensures Capped(w')
    decreases |events|
  {
    if events != [] {
      CapStep(w, events[0]);
      PairsStayCapped(Apply(w, events[0]), events[1..], w');
    }
  }

  lemma CapStep(w: World, ev: Event)
    requires w.Valid() && Enabled(w, ev) && Capped(w) && FindsRoom(w, ev)
    ensures Capped(Apply(w, ev))
  {
    RoutesAfterStep(w, ev);
    forall p | p in w.routes
      ensures |RouteAfter(w, ev, p).health.pairs.Keys| <= MAX_PAIRS
    {
      if p == Subject(w, ev) {
        CapSubjectStep(w, ev, p);
      } else {
        OthersUntouched(w, ev, p);
      }
    }
  }

  lemma CapSubjectStep(w: World, ev: Event, p: Proxy)
    requires w.Valid() && Enabled(w, ev) && FindsRoom(w, ev) && p in w.routes && p == Subject(w, ev)
    requires |w.routes[p].health.pairs.Keys| <= MAX_PAIRS
    ensures |RouteAfter(w, ev, p).health.pairs.Keys| <= MAX_PAIRS
  {
    var pairs := w.routes[p].health.pairs;
    if ev.Local? && ev.change.Refusal? {
      CapRefusal(pairs, ev.change);
    } else if ev.Local? && ev.change.Success? {
      assert (pairs - {ev.change.target}).Keys == pairs.Keys - {ev.change.target};
    }
  }

  lemma CapRefusal(pairs: map<string, Pair>, c: Change)
    requires c.Refusal? && MakesRoom(pairs, c.target, c.now, c.evicted) && |pairs.Keys| <= MAX_PAIRS
    requires c.target in pairs || |pairs.Keys| != MAX_PAIRS || AlwaysRoom(pairs, c.now)
    ensures |Refuse(pairs, c.target, c.evicted, c.base, c.max, c.now).Keys| <= MAX_PAIRS
  {
    if c.target !in pairs && |pairs| == MAX_PAIRS {
      RoomForOne(pairs, c.target, c.now, c.evicted, c.base, c.max);
    } else {
      assert Refuse(pairs, c.target, {}, c.base, c.max, c.now).Keys == pairs.Keys + {c.target};
    }
  }

  // Different names, one for every number.
  ghost function Name(n: nat): string {
    seq(n, i requires 0 <= i < n => 'x')
  }

  /** Refusals of that many different targets, under the longest cooldown there is. */
  ghost function Pile(p: Proxy, n: nat, now: int): seq<Event> {
    if n == 0 then [] else
      Pile(p, n - 1, now) + [Local(p, Refusal(Name(n), {}, MAX_INT64, MAX_INT64, now))]
  }

  ghost predicate Piled(pairs: map<string, Pair>, n: nat) {
    |pairs.Keys| == n && (forall k :: k in pairs ==> 0 < |k| <= n && pairs[k].deadline == MAX_INT64)
  }

  /** The cap fails: with a cooldown of the longest duration, which the settings
      allow, named targets fill the map of a route to any size. */
  lemma {:induction false} CapFails(w: World, p: Proxy, n: nat, now: int) returns (w': World)
    requires w.Valid() && p in w.routes && w.routes[p].health.pairs == map[] && 0 <= now < MAX_INT64
    ensures Reaches(w, Pile(p, n, now), w') && p in w'.routes && Piled(w'.routes[p].health.pairs, n)
    ensures w'.Valid()
  {
    if n == 0 {
      w' := w;
    } else {
      var mid := CapFails(w, p, n - 1, now);
      var ev := Local(p, Refusal(Name(n), {}, MAX_INT64, MAX_INT64, now));
      w' := PileOne(mid, p, n, now);
      RunExtends(w, Pile(p, n - 1, now), mid, ev);
    }
  }

  lemma PileOne(w: World, p: Proxy, n: nat, now: int) returns (w': World)
    requires w.Valid() && p in w.routes && 0 < n && Piled(w.routes[p].health.pairs, n - 1) && 0 <= now < MAX_INT64
    ensures var ev := Local(p, Refusal(Name(n), {}, MAX_INT64, MAX_INT64, now)); Enabled(w, ev) && w' == Apply(w, ev)
    ensures p in w'.routes && Piled(w'.routes[p].health.pairs, n)
  {
    var ev := Local(p, Refusal(Name(n), {}, MAX_INT64, MAX_INT64, now));
    PiledHigher(w.routes[p].health.pairs, n, now);
    RoutesAfterStep(w, ev);
    w' := Apply(w, ev);
  }

  lemma PiledHigher(pairs: map<string, Pair>, n: nat, now: int)
    requires 0 < n && Piled(pairs, n - 1) && 0 <= now < MAX_INT64
    ensures MakesRoom(pairs, Name(n), now, {})
    ensures Piled(Refuse(pairs, Name(n), {}, MAX_INT64, MAX_INT64, now), n)
  {
    var next := Refuse(pairs, Name(n), {}, MAX_INT64, MAX_INT64, now);
    assert |Name(n)| == n;
    assert Saturated(MAX_INT64, MAX_INT64, 1) == MAX_INT64 by {
      assert Pow2(0) == 1;
    }
    assert next.Keys == pairs.Keys + {Name(n)};
  }

  // ---- Starvation

  ghost predicate IsEligiblePick(w: World, ev: Event, gen: nat, r: Proxy)
    requires r in w.routes
  {
    ev.Picked? && ev.gen == gen && Eligible(w.routes, ev.ok, ev.target, ev.now, r)
  }

  /** The step serves the route, or moves it back on the recency clock. */
  ghost predicate Advances(w: World, ev: Event, r: Proxy)
    requires w.Valid() && Enabled(w, ev)
  {
    match ev
    case Picked(_, _, _, _, picked) => picked == r
    case Local(p, c) => p == r && c.Success?
    case StaleReturn(p, _, _) => p == r
    case _ => false
  }

  ghost predicate NeverAdvances(w: World, events: seq<Event>, r: Proxy)
    requires w.Valid()
    decreases |events|
  {
    events == [] || (Enabled(w, events[0]) ==>
      !Advances(w, events[0], r) && NeverAdvances(Apply(w, events[0]), events[1..], r))
  }

  /** How many picks of the generation the route was eligible for. */
  ghost function EligiblePicks(w: World, events: seq<Event>, gen: nat, r: Proxy): nat
    requires w.Valid() && r in w.routes
    decreases |events|
  {
    if events == [] || !Enabled(w, events[0]) then 0 else
      (if IsEligiblePick(w, events[0], gen, r) then 1 else 0) + EligiblePicks(Apply(w, events[0]), events[1..], gen, r)
  }

  /** How often entry j can still be preferred to entry i. */
  ghost function Share(entries: seq<Proxy>, v: Views, i: nat, j: nat): nat
    requires Viewed(entries, v) && i < |entries| && j < |entries|
  {
    if i == j then 0 else Max(0, v[entries[i]].pass - v[entries[j]].pass + (if j < i then 1 else 0))
  }

  /** How often the first n entries together can still be preferred to entry i. */
  ghost function Debt(entries: seq<Proxy>, v: Views, i: nat, n: nat): nat
    requires Viewed(entries, v) && i < |entries| && n <= |entries|
  {
    if n == 0 then 0 else Debt(entries, v, i, n - 1) + Share(entries, v, i, n - 1)
  }

  /** In a run that never serves the route nor moves it back, it is eligible for
      at most as many picks as its peers were owed: one more and it is served. */
  lemma {:induction false} StarvationBound(w: World, events: seq<Event>, w': World, gen: nat, i: nat)
    requires w.Valid() && Reaches(w, events, w') && gen < |w.gens| && i < |w.gens[gen].entries|
    requires NeverAdvances(w, events, w.gens[gen].entries[i])
    ensures EligiblePicks(w, events, gen, w.gens[gen].entries[i]) <=
            Debt(w.gens[gen].entries, w.routes, i, |w.gens[gen].entries|)
    decreases |events|
  {
    if events != [] {
      DebtStep(w, events[0], gen, i);
      StarvationBound(Apply(w, events[0]), events[1..], w', gen, i);
    }
  }

  lemma PassAfter(w: World, ev: Event, p: Proxy)
    requires w.Valid() && Enabled(w, ev) && p in w.routes
    ensures RouteAfter(w, ev, p).pass >= w.routes[p].pass
    ensures !Advances(w, ev, p) ==> RouteAfter(w, ev, p).pass == w.routes[p].pass
    ensures ev.Picked? && ev.r == p ==> RouteAfter(w, ev, p).pass == w.routes[p].pass + 1
  {
  }

  lemma DebtStep(w: World, ev: Event, gen: nat, i: nat)
    requires w.Valid() && Enabled(w, ev) && gen < |w.gens| && i < |w.gens[gen].entries|
    requires !Advances(w, ev, w.gens[gen].entries[i])
    ensures var entries := w.gens[gen].entries;
      var v' := Apply(w, ev).routes;
      Viewed(entries, v') &&
      Debt(entries, v', i, |entries|) + (if IsEligiblePick(w, ev, gen, entries[i]) then 1 else 0)
        <= Debt(entries, w.routes, i, |entries|)
  {
    var entries, v' := w.gens[gen].entries, Apply(w, ev).routes;
    RoutesAfterStep(w, ev);
    forall e | e in entries
      ensures v'[e].pass >= w.routes[e].pass
    {
      PassAfter(w, ev, e);
    }
    PassAfter(w, ev, entries[i]);
    var k := |entries|;
    if IsEligiblePick(w, ev, gen, entries[i]) {
      var chosen := ev.r;
      k :| 0 <= k < |entries| && LeastServed(entries, w.routes, ev.ok, ev.target, ev.now, k) && chosen == entries[k];
      PassAfter(w, ev, chosen);
    }
    DebtShrinks(entries, w.routes, v', i, k, |entries|);
  }

  lemma {:induction false} DebtShrinks(entries: seq<Proxy>, v: Views, v': Views, i: nat, k: nat, n: nat)
    requires Viewed(entries, v) && Viewed(entries, v') && i < |entries| && n <= |entries|
    requires v'[entries[i]].pass == v[entries[i]].pass
    requires forall e :: e in entries ==> v'[e].pass >= v[e].pass
    requires k < |entries| ==> v'[entries[k]].pass > v[entries[k]].pass && Share(entries, v, i, k) > 0
    ensures Debt(entries, v', i, n) + (if k < n then 1 else 0) <= Debt(entries, v, i, n)
  {
    if n > 0 {
      DebtShrinks(entries, v, v', i, k, n - 1);
      assert entries[n - 1] in entries;
    }
  }

  /** On a level clock a route waits for exactly the entries listed before it. */
  lemma {:induction false} LevelDebt(entries: seq<Proxy>, v: Views, i: nat, n: nat)
    requires Viewed(entries, v) && i < |entries| && n <= |entries|
    requires forall e :: e in entries ==> v[e].pass == v[entries[i]].pass
    ensures Debt(entries, v, i, n) == Min(i, n)
  {
    if n > 0 {
      LevelDebt(entries, v, i, n - 1);
      assert entries[n - 1] in entries;
    }
  }

  // ---- From the first generation on

  /** At boot every invariant above holds. */
  lemma BootEstablishes(w: World)
    requires Boot(w)
    ensures TurnsConsistent(w) && EgressExclusive(w) && HistoriesConserved(w) && TotalsAgree(w)
    ensures forall p :: p in w.routes ==> PairsBounded(w.routes[p].health.pairs)
  {
    TotalZeroes(map[], RotationCounts(w.routes));
    TotalZeroes(map[], RevisitCounts(w.routes));
  }
}
