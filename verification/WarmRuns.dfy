// What holds over whole runs of the warm pool: one owner for every connection,
// conserved reservations, bounds, and isolation of rotations.
module WarmRuns {
  import opened Common
  import opened Routes
  import opened WarmBuckets
  import opened WarmSafety

  /** A new pool, over routes at any epochs. */
  ghost predicate Fresh(s: State) {
    s == State(map[], map[], s.epochs, false, 0, {}, map[], map[])
  }

  /** The events lead from one state to the other. */
  ghost predicate Reaches(s: State, events: seq<Event>, s': State)
    decreases |events|
  {
    if events == [] then s' == s else
      Indexed(s) && Enabled(s, events[0]) && Reaches(Apply(s, events[0]), events[1..], s')
  }

  lemma {:induction false} RunKeeps(s: State, events: seq<Event>, s': State)
    requires Inv(s) && Reaches(s, events, s')
    ensures Inv(s')
    decreases |events|
  {
    if events != [] {
      StepKeeps(s, events[0]);
      RunKeeps(Apply(s, events[0]), events[1..], s');
    }
  }

  lemma FreshRunKeeps(s: State, events: seq<Event>, s': State)
    requires Fresh(s) && Reaches(s, events, s')
    ensures Inv(s')
  {
    RunKeeps(s, events, s');
  }

  // ---- One owner

  /** The connection is the i-th one parked in the bucket. */
  ghost predicate At(s: State, hc: HalfConn, b: RouteBucket, i: int) {
    b in s.cells && 0 <= i < |s.cells[b].ready| && s.cells[b].ready[i].hc == hc
  }

  ghost predicate ParkedHere(s: State, b: RouteBucket, hc: HalfConn) {
    hc in s.place && s.place[hc] == Parked(b) && s.Mapped(b) && hc in s.dialled && s.dialled[hc].p == b.p
  }

  /** Every connection ever dialled is in exactly one place: with the one claim
      that dialled it, at one position of one mapped bucket of the route it was
      dialled for, lent, or closed; and nothing else is parked. */
  ghost predicate OwnedOnce(s: State) {
    s.place.Keys == s.dialled.Keys &&
    (forall b, i :: b in s.cells && 0 <= i < |s.cells[b].ready| ==> ParkedHere(s, b, s.cells[b].ready[i].hc)) &&
    (forall b, i, c, j :: b in s.cells && 0 <= i < |s.cells[b].ready| && c in s.cells && 0 <= j < |s.cells[c].ready| ==>
      s.cells[b].ready[i].hc == s.cells[c].ready[j].hc ==> b == c && i == j) &&
    (forall hc :: hc in s.place && s.place[hc].Parked? ==> exists i :: At(s, hc, s.place[hc].b, i)) &&
    (forall hc :: hc in s.place && s.place[hc].InHands? ==>
      s.dialled[hc] in s.tasks && s.place[hc] == InHands(s.dialled[hc])) &&
    (forall hc, other ::
      hc in s.place && other in s.place && s.place[hc].InHands? && s.place[hc] == s.place[other] ==> hc == other)
  }

  lemma OneOwner(s: State, events: seq<Event>, s': State)
    requires Fresh(s) && Reaches(s, events, s')
    ensures OwnedOnce(s')
  {
    FreshRunKeeps(s, events, s');
    forall b, i | b in s'.cells && 0 <= i < |s'.cells[b].ready|
      ensures ParkedHere(s', b, s'.cells[b].ready[i].hc)
    {
      assert BucketOK(s', b, s'.cells[b].ready) && ParkedOK(s', b, s'.cells[b].ready[i]);
    }
    forall b, i, c, j | b in s'.cells && 0 <= i < |s'.cells[b].ready| && c in s'.cells &&
      0 <= j < |s'.cells[c].ready| &&
                        s'.cells[b].ready[i].hc == s'.cells[c].ready[j].hc
      ensures b == c && i == j
    {
      assert BucketOK(s', b, s'.cells[b].ready) && ParkedHere(s', b, s'.cells[b].ready[i].hc);
      assert ParkedHere(s', c, s'.cells[c].ready[j].hc);
    }
    forall hc | hc in s'.place && s'.place[hc].Parked?
      ensures exists i :: At(s', hc, s'.place[hc].b, i)
    {
      var i :| 0 <= i < |s'.cells[s'.place[hc].b].ready| && s'.cells[s'.place[hc].b].ready[i].hc == hc;
      assert At(s', hc, s'.place[hc].b, i);
    }
  }

  /** A connection lent or closed is never parked, lent again or reopened. */
  lemma {:induction false} LeavesForGood(s: State, events: seq<Event>, s': State, hc: HalfConn)
    requires Inv(s) && Reaches(s, events, s')
    requires hc in s.place && (s.place[hc] == Lent || s.place[hc] == Closed)
    ensures hc in s'.place && s'.place[hc] == s.place[hc]
    decreases |events|
  {
    if events != [] {
      StepKeeps(s, events[0]);
      LeftStaysLeft(s, events[0], hc);
      LeavesForGood(Apply(s, events[0]), events[1..], s', hc);
    }
  }

  lemma LeftStaysLeft(s: State, ev: Event, hc: HalfConn)
    requires Inv(s) && Enabled(s, ev)
    requires hc in s.place && (s.place[hc] == Lent || s.place[hc] == Closed)
    ensures hc in Apply(s, ev).place && Apply(s, ev).place[hc] == s.place[hc]
  {
    if ev.Borrow? && ev.p in s.index {
      var b := s.index[ev.p];
      assert BucketOK(s, b, s.cells[b].ready);
      assert s.cells[b].ready != [] ==> ParkedOK(s, b, s.cells[b].ready[0]);
    }
  }

  /** Once stopped, the pool stays stopped and empty, late dials included, and
      from then on lends nothing. */
  lemma {:induction false} StoppedForGood(s: State, events: seq<Event>, s': State)
    requires Inv(s) && s.stopped && Reaches(s, events, s')
    ensures s'.stopped && (forall hc, b, i :: !At(s', hc, b, i))
    ensures forall hc :: hc in s'.place && s'.place[hc] == Lent ==> hc in s.place && s.place[hc] == Lent
    decreases |events|
  {
    RunKeeps(s, events, s');
    if events != [] {
      StepKeeps(s, events[0]);
      StoppedForGood(Apply(s, events[0]), events[1..], s');
    }
  }

  // ---- Reservations

  ghost function Flying(s: State): map<RouteBucket, int> {
    map b | b in s.cells :: s.cells[b].flying
  }

  /** The claims on each bucket. */
  ghost function Claims(tasks: set<Task>, cells: set<RouteBucket>): map<RouteBucket, int> {
    map b | b in cells :: |TasksOn(tasks, b)|
  }

  lemma {:induction false} ClaimsTotal(tasks: set<Task>, cells: set<RouteBucket>)
    requires forall t :: t in tasks ==> t.b in cells
    ensures Total(Claims(tasks, cells)) == |tasks|
  {
    if tasks == {} {
      var none: map<RouteBucket, int> := map[];
      assert forall b :: TasksOn(tasks, b) == {};
      TotalZeroes(none, Claims(tasks, cells));
    } else {
      var t :| t in tasks;
      ClaimsTotal(tasks - {t}, cells);
      TasksOnChange(tasks, t);
      var before, counts := Claims(tasks - {t}, cells), Claims(tasks, cells);
      TotalUpdate(before, t.b, counts[t.b]);
      assert before[t.b := counts[t.b]] == counts;
    }
  }

  /** No count is negative, and over all buckets, dropped ones included, the
      dials in the air are exactly the claims not yet finished. */
  ghost predicate Conserved(s: State) {
    Total(Flying(s)) == |s.tasks| &&
    forall b :: b in s.cells ==> 0 <= s.cells[b].pending && 0 <= s.cells[b].flying
  }

  lemma ReservationsConserved(s: State, events: seq<Event>, s': State)
    requires Fresh(s) && Reaches(s, events, s')
    ensures Conserved(s')
  {
    FreshRunKeeps(s, events, s');
    ClaimsTotal(s'.tasks, s'.cells.Keys);
    assert Flying(s') == Claims(s'.tasks, s'.cells.Keys);
  }

  // ---- Bounds

  /** No configuration the step saw exceeds the ceiling. */
  predicate Within(ev: Event, top: Config) {
    match ev
    case Sweep(_, _, _, cfg, _, _) => cfg.minIdle <= top.minIdle
    case Claim(_, _, cfg, _) => 0 < cfg.perRoute <= top.perRoute || top.perRoute <= 0
    case Completed(_, _, cfg, _) => cfg.maxTotal <= top.maxTotal && cfg.maxIdle <= top.maxIdle
    case _ => true
  }

  ghost predicate Bounded(s: State, top: Config)
    requires Indexed(s)
  {
    (forall b :: b in s.cells ==>
      s.cells[b].Owed() <= top.minIdle && |s.cells[b].ready| <= top.maxIdle &&
      (top.perRoute > 0 ==> s.cells[b].flying <= top.perRoute)) &&
    TotalIdle(s) <= top.maxTotal
  }

  /** Parking less never raises the total. */
  lemma IdleShrinks(s: State, s': State)
    requires Indexed(s) && Indexed(s')
    requires forall p :: p in s'.index ==>
      if p in s.index then s'.index[p] == s.index[p] && |s'.cells[s'.index[p]].ready| <= |s.cells[s'.index[p]].ready|
      else s'.cells[s'.index[p]].ready == []
    ensures TotalIdle(s') <= TotalIdle(s)
  {
    var known := map p | p in s'.index && p in s.index :: IdleCounts(s')[p];
    TotalMonotone(known, IdleCounts(s));
    TotalZeroes(known, IdleCounts(s'));
  }

  lemma SweptShrinks(ready: seq<WarmConn>, epoch: nat, cfg: Config, now: int)
    requires cfg.Validated()
    ensures |SweptReady(ready, epoch, cfg, now)| <= |ready|
  {
    var at := RetainedIsFilter(ready, epoch, now, cfg.idleTTL);
    if |at| > |ready| {
      Increasing(at, |at| - 1);
    }
  }

  lemma {:induction false} Increasing(at: seq<nat>, k: nat)
    requires k < |at| && forall i, j :: 0 <= i < j < |at| ==> at[i] < at[j]
    ensures k <= at[k]
  {
    if k > 0 {
      Increasing(at, k - 1);
    }
  }

  /** No bucket is owed, parks or is dialled more; new ones are empty. */
  ghost predicate Lighter(s: State, s': State)
    requires Indexed(s) && Indexed(s')
  {
    (forall b :: b in s'.cells ==>
      if b in s.cells then
        s'.cells[b].Owed() <= s.cells[b].Owed() && s'.cells[b].flying <= s.cells[b].flying &&
          |s'.cells[b].ready| <= |s.cells[b].ready|
      else s'.cells[b] == EMPTY) &&
    (forall p :: p in s'.index ==> if p in s.index then s'.index[p] == s.index[p] else s'.index[p] !in s.cells)
  }

  lemma LighterBounded(s: State, s': State, top: Config)
    requires Indexed(s) && Indexed(s') && Lighter(s, s') && Bounded(s, top) && top.Validated()
    ensures Bounded(s', top)
  {
    IdleShrinks(s, s');
  }

  lemma PrunedBounded(s: State, live: set<Proxy>, top: Config)
    requires Indexed(s) && Indexed(Pruned(s, live)) && Bounded(s, top) && top.Validated()
    ensures Bounded(Pruned(s, live), top)
  {
    LighterBounded(s, Pruned(s, live), top);
  }

  lemma AdoptedBounded(s: State, live: set<Proxy>, made: map<Proxy, RouteBucket>, top: Config)
    requires Indexed(s) && MadeFor(s, live, made) && Indexed(Adopted(s, made)) && Bounded(s, top) && top.Validated()
    ensures Bounded(Adopted(s, made), top)
  {
    var s' := Adopted(s, made);
    assert forall b :: b in s'.cells && b !in s.cells ==> b in made.Values;
    assert forall b :: b in s.cells ==> b !in made.Values;
    LighterBounded(s, s', top);
  }

  lemma MaintainedBounded(s: State, cfg: Config, now: int, top: Config)
    requires Indexed(s) && cfg.Validated() && Indexed(MaintainedAll(s, cfg, now)) && Bounded(s, top) && top.Validated()
    ensures Bounded(MaintainedAll(s, cfg, now), top)
  {
    var s' := MaintainedAll(s, cfg, now);
    forall b | b in s.cells
      ensures |s'.cells[b].ready| <= |s.cells[b].ready|
    {
      if s.Mapped(b) {
        SweptShrinks(s.cells[b].ready, s.epochs[b.p], cfg, now);
      }
    }
    LighterBounded(s, s', top);
  }

  lemma ScheduledBounded(s: State, added: map<Proxy, int>, calm: set<Proxy>, cfg: Config, now: int, top: Config)
    requires Indexed(s) && IsSchedule(s, added, calm, cfg, now) && Bounded(s, top) && cfg.minIdle <= top.minIdle
    ensures Indexed(Scheduled(s, added)) && Bounded(Scheduled(s, added), top)
  {
    var s' := Scheduled(s, added);
    forall b | b in s.cells
      ensures s'.cells[b].Owed() <= top.minIdle
    {
      assert s.Mapped(b) ==> added[b.p] <= Missing(s, calm, cfg, now)[b.p];
    }
    IdleShrinks(s, s');
  }

  lemma StagesBounded(s: State, live: set<Proxy>, made: map<Proxy, RouteBucket>, cfg: Config, now: int, top: Config)
    requires Inv(s) && cfg.Validated() && MadeFor(s, live, made) && Bounded(s, top) && top.Validated()
    ensures Inv(Maintenance(s, live, made, cfg, now)) && Bounded(Maintenance(s, live, made, cfg, now), top)
  {
    var pruned := Pruned(s, live);
    PrunedKeeps(s, live);
    PrunedBounded(s, live, top);
    AdoptedKeeps(pruned, live, made);
    AdoptedBounded(pruned, live, made, top);
    MaintainedKeeps(Adopted(pruned, made), cfg, now);
    MaintainedBounded(Adopted(pruned, made), cfg, now, top);
  }

  lemma SweepBounded(s: State, ev: Event, top: Config)
    requires Inv(s) && Enabled(s, ev) && ev.Sweep? && Bounded(s, top) && Within(ev, top) && top.Validated()
    ensures Indexed(Apply(s, ev)) && Bounded(Apply(s, ev), top)
  {
    if !s.stopped {
      StagesBounded(s, ev.live, ev.made, ev.cfg, ev.now, top);
      if ev.cfg.enabled {
        ScheduledBounded(Maintenance(s, ev.live, ev.made, ev.cfg, ev.now), ev.added, ev.calm, ev.cfg, ev.now, top);
      } else {
        var kept := Maintenance(s, ev.live, ev.made, ev.cfg, ev.now);
        EmptiedLighter(kept, kept.index.Values);
        LighterBounded(kept, Emptied(kept, kept.index.Values), top);
      }
    }
  }

  lemma ClaimBounded(s: State, ev: Event, top: Config)
    requires Inv(s) && Enabled(s, ev) && ev.Claim? && Bounded(s, top) && Within(ev, top)
    ensures Indexed(Apply(s, ev)) && Bounded(Apply(s, ev), top)
  {
    IdleShrinks(s, Apply(s, ev));
  }

  lemma OneMoreParked(s: State, s': State, p: Proxy)
    requires Indexed(s) && Indexed(s') && s'.index == s.index && p in s.index
    requires forall q :: q in s.index ==>
      |s'.cells[s.index[q]].ready| == |s.cells[s.index[q]].ready| + if q == p then 1 else 0
    ensures TotalIdle(s') == TotalIdle(s) + 1
  {
    TotalUpdate(IdleCounts(s), p, IdleCounts(s')[p]);
    assert IdleCounts(s') == IdleCounts(s)[p := IdleCounts(s')[p]];
  }

  lemma AcceptedBounded(s: State, ev: Event, top: Config)
    requires Inv(s) && Enabled(s, ev) && ev.Completed? && Parkable(s, ev.t, ev.cfg) && Bounded(s, top) &&
      Within(ev, top)
    ensures Indexed(Apply(s, ev)) && Bounded(Apply(s, ev), top)
  {
    OneMoreParked(s, Apply(s, ev), ev.t.p);
  }

  lemma RefusedBounded(s: State, ev: Event, top: Config)
    requires Inv(s) && Enabled(s, ev) && ev.Completed? && !Parkable(s, ev.t, ev.cfg) && Bounded(s, top)
    ensures Indexed(Apply(s, ev)) && Bounded(Apply(s, ev), top)
  {
    IdleShrinks(s, Apply(s, ev));
  }

  lemma EmptiedLighter(s: State, gone: set<RouteBucket>)
    requires Indexed(s)
    ensures Indexed(Emptied(s, gone)) && Lighter(s, Emptied(s, gone))
  {
  }

  lemma BorrowLighter(s: State, ev: Event)
    requires Indexed(s) && ev.Borrow?
    ensures Indexed(Apply(s, ev)) && Lighter(s, Apply(s, ev))
  {
  }

  lemma StopLighter(s: State)
    requires Inv(s)
    ensures Indexed(Apply(s, Stop)) && Lighter(s, Apply(s, Stop))
  {
    EmptiedLighter(s, s.index.Values);
  }

  lemma OtherLighter(s: State, ev: Event)
    requires Inv(s) && Enabled(s, ev) && !ev.Sweep? && !ev.Claim? && !ev.Completed?
    ensures Indexed(Apply(s, ev)) && Lighter(s, Apply(s, ev))
  {
    match ev
    case Borrow(_, _) => BorrowLighter(s, ev);
    case Stop => StopLighter(s);
    case Discard(p) => if p in s.index { EmptiedLighter(s, {s.index[p]}); }
    case _ =>
  }

  lemma OtherBounded(s: State, ev: Event, top: Config)
    requires Inv(s) && Enabled(s, ev) && Bounded(s, top) && top.Validated()
    requires !ev.Sweep? && !ev.Claim? && !ev.Completed?
    ensures Indexed(Apply(s, ev)) && Bounded(Apply(s, ev), top)
  {
    OtherLighter(s, ev);
    LighterBounded(s, Apply(s, ev), top);
  }

  lemma StepBounded(s: State, ev: Event, top: Config)
    requires Inv(s) && Enabled(s, ev) && Bounded(s, top) && Within(ev, top) && top.Validated()
    ensures Indexed(Apply(s, ev)) && Bounded(Apply(s, ev), top)
  {
    if ev.Sweep? {
      SweepBounded(s, ev, top);
    } else if ev.Claim? {
      ClaimBounded(s, ev, top);
    } else if ev.Completed? {
      if Parkable(s, ev.t, ev.cfg) { AcceptedBounded(s, ev, top); } else { RefusedBounded(s, ev, top); }
    } else {
      OtherBounded(s, ev, top);
    }
  }

  /** Whatever the run, as long as no configuration exceeds the ceiling: no
      route is owed more than the largest minimum, no route parks or is dialled
      beyond its cap, and the pool never parks more than its total. */
  lemma {:induction false} BoundsHold(s: State, events: seq<Event>, s': State, top: Config)
    requires Inv(s) && Bounded(s, top) && top.Validated() && Reaches(s, events, s')
    requires forall i :: 0 <= i < |events| ==> Within(events[i], top)
    ensures Indexed(s') && Bounded(s', top)
    decreases |events|
  {
    if events != [] {
      StepKeeps(s, events[0]);
      StepBounded(s, events[0], top);
      BoundsHold(Apply(s, events[0]), events[1..], s', top);
    }
  }

  lemma FreshBounded(s: State, top: Config)
    requires Fresh(s) && top.Validated()
    ensures Inv(s) && Bounded(s, top)
  {
    assert IdleCounts(s) == map[];
  }

  // ---- Rotations

  /** How often a route began a rotation. */
  ghost function Rotations(events: seq<Event>, p: Proxy): nat {
    if events == [] then 0 else
      (if events[0] == Rotate(p) then 1 else 0) + Rotations(events[1..], p)
  }

  lemma EpochAfter(s: State, ev: Event, p: Proxy)
    requires Indexed(s) && Enabled(s, ev) && p in s.epochs
    ensures p in Apply(s, ev).epochs && Apply(s, ev).epochs[p] == s.epochs[p] + if ev == Rotate(p) then 1 else 0
  {
  }

  /** A route's epoch counts its rotations. */
  lemma {:induction false} EpochsCountRotations(s: State, events: seq<Event>, s': State, p: Proxy)
    requires Inv(s) && Reaches(s, events, s') && p in s.epochs
    ensures p in s'.epochs && s'.epochs[p] == s.epochs[p] + Rotations(events, p)
    decreases |events|
  {
    if events != [] {
      StepKeeps(s, events[0]);
      EpochAfter(s, events[0], p);
      EpochsCountRotations(Apply(s, events[0]), events[1..], s', p);
    }
  }

  ghost predicate Known(s: State, t: Task) {
    t in s.tasks || t in s.dialled.Values
  }

  lemma KnownByClaim(s: State, ev: Event, t: Task)
    requires Inv(s) && Enabled(s, ev) && !Known(s, t) && Known(Apply(s, ev), t)
    ensures ev.Claim? && ev.t == t && t.p in s.epochs && t.epoch == s.epochs[t.p]
  {
  }

  /** A dial that was not known before was claimed at some step of the run, and
      its route has since begun exactly as many rotations as its epoch moved. */
  lemma {:induction false} ClaimedAt(s: State, events: seq<Event>, s': State, t: Task) returns (i: nat)
    requires Inv(s) && Reaches(s, events, s') && !Known(s, t) && Known(s', t)
    ensures i < |events| && events[i].Claim? && events[i].t == t
    ensures t.p in s'.epochs && s'.epochs[t.p] == t.epoch + Rotations(events[i..], t.p)
    decreases |events|
  {
    var next, rest := Apply(s, events[0]), events[1..];
    StepKeeps(s, events[0]);
    if Known(next, t) {
      i := 0;
      KnownByClaim(s, events[0], t);
      EpochsCountRotations(s, events, s', t.p);
      assert events[0..] == events;
    } else {
      i := ClaimedAt(next, rest, s', t);
      i := i + 1;
      assert events[i..] == rest[i - 1..];
    }
  }

  /** Rotation isolation: whatever a borrow hands out was dialled for that very
      route, by a claim of the run after which the route never began a rotation. */
  lemma RotationIsolation(s: State, events: seq<Event>, s': State, p: Proxy, cfg: Config) returns (i: nat)
    requires Fresh(s) && Reaches(s, events, s')
    requires Indexed(s') && Borrowed(s', p, cfg).Some?
    ensures var hc := Borrowed(s', p, cfg).value;
      hc in s'.dialled && s'.dialled[hc].p == p &&
      i < |events| && events[i].Claim? && events[i].t == s'.dialled[hc] && Rotations(events[i..], p) == 0
  {
    FreshRunKeeps(s, events, s');
    var b := s'.index[p];
    assert BucketOK(s', b, s'.cells[b].ready) && ParkedOK(s', b, s'.cells[b].ready[0]);
    i := ClaimedAt(s, events, s', s'.dialled[s'.cells[b].ready[0].hc]);
  }

  /** What a borrow would hand out now was claimed at a step after which its
      route began no rotation. */
  ghost predicate Isolated(s: State, events: seq<Event>, p: Proxy, cfg: Config)
    requires Indexed(s)
  {
    var lent := Borrowed(s, p, cfg);
    lent.Some? ==>
      lent.value in s.dialled && s.dialled[lent.value].p == p &&
      exists i :: 0 <= i < |events| && events[i].Claim? && events[i].t == s.dialled[lent.value] &&
                  Rotations(events[i..], p) == 0
  }

  /** After a sweep every parked connection is of its route's current epoch, has
      not expired, and every mapped bucket is within its bound; a disabled pool
      is empty. */
  lemma SweepLeavesCurrent(s: State, ev: Event, hc: HalfConn, b: RouteBucket, i: int)
    requires Inv(s) && Enabled(s, ev) && ev.Sweep? && !s.stopped && At(Apply(s, ev), hc, b, i)
    ensures ev.cfg.enabled && b.p in ev.live && |Apply(s, ev).cells[b].ready| <= ev.cfg.maxIdle
    ensures b.p in s.epochs && var wc := Apply(s, ev).cells[b].ready[i];
      wc.epoch == s.epochs[b.p] && ev.now - wc.created <= ev.cfg.idleTTL
  {
    VacantWhenAdopted(s, ev);
    LastStageParksNothing(s, ev, hc, b, i);
    MaintainedLeavesCurrent(Adopted(Pruned(s, ev.live), ev.made), ev.cfg, ev.now, hc, b, i);
  }

  lemma VacantWhenAdopted(s: State, ev: Event)
    requires Inv(s) && Enabled(s, ev) && ev.Sweep? && !s.stopped
    ensures var adopted := Adopted(Pruned(s, ev.live), ev.made);
      Indexed(adopted) && VacantOK(adopted) && adopted.epochs == s.epochs && adopted.index.Keys <= ev.live
    ensures Inv(Maintenance(s, ev.live, ev.made, ev.cfg, ev.now))
  {
    SweepStagesKeep(s, ev);
  }

  lemma LastStageParksNothing(s: State, ev: Event, hc: HalfConn, b: RouteBucket, i: int)
    requires Indexed(s) && Enabled(s, ev) && ev.Sweep? && !s.stopped && At(Apply(s, ev), hc, b, i)
    requires Inv(Maintenance(s, ev.live, ev.made, ev.cfg, ev.now))
    ensures ev.cfg.enabled
    ensures var m := Maintenance(s, ev.live, ev.made, ev.cfg, ev.now);
      At(m, hc, b, i) && Apply(s, ev).cells[b].ready == m.cells[b].ready
  {
    var m := Maintenance(s, ev.live, ev.made, ev.cfg, ev.now);
    assert m.Mapped(b) ==> b in m.index.Values;
  }

  lemma MaintainedLeavesCurrent(s: State, cfg: Config, now: int, hc: HalfConn, b: RouteBucket, i: int)
    requires Indexed(s) && VacantOK(s) && cfg.Validated() && At(MaintainedAll(s, cfg, now), hc, b, i)
    ensures s.Mapped(b) && |MaintainedAll(s, cfg, now).cells[b].ready| <= cfg.maxIdle
    ensures b.p in s.epochs && var wc := MaintainedAll(s, cfg, now).cells[b].ready[i];
      wc.epoch == s.epochs[b.p] && now - wc.created <= cfg.idleTTL
  {
    var at := RetainedIsFilter(s.cells[b].ready, s.epochs[b.p], now, cfg.idleTTL);
    assert at[i] in at;
  }
}
