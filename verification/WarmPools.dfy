// The warm pool itself: buckets, in-place filters, counters. Its whole history
// is kept as a run of the protocol, so that what holds of every run of the
// protocol holds of every use of the pool.
module WarmPools {
  import opened Common
  import opened Cooldown
  import opened Routes
  import opened WarmBuckets
  import opened WarmSafety
  import opened WarmRuns

  // ---- Values

  ghost function Conns(ready: seq<WarmConn>): set<HalfConn> {
    set i | 0 <= i < |ready| :: ready[i].hc
  }

  ghost function PlacedAt(s: State, at: Place): set<HalfConn> {
    set hc | hc in s.place && s.place[hc] == at
  }

  lemma ConnsSplit(before: seq<WarmConn>, wc: WarmConn)
    ensures Conns(before + [wc]) == Conns(before) + {wc.hc}
  {
    var all := before + [wc];
    assert forall i :: 0 <= i < |before| ==> all[i] == before[i];
    assert all[|before|] == wc;
    forall hc | hc in Conns(before) + {wc.hc}
      ensures hc in Conns(all)
    {
      if hc in Conns(before) {
        var i :| 0 <= i < |before| && before[i].hc == hc;
        assert all[i].hc == hc;
      }
    }
  }

  /** Exactly the connections parked in the bucket are recorded there. */
  ghost predicate Ledgered(s: State, b: RouteBucket) {
    b in s.cells && Distinct(s.cells[b].ready) && Conns(s.cells[b].ready) == PlacedAt(s, Parked(b))
  }

  lemma InvLedgered(s: State)
    requires Inv(s)
    ensures forall b :: b in s.cells ==> Ledgered(s, b)
  {
    forall b | b in s.cells
      ensures Ledgered(s, b)
    {
      assert BucketOK(s, b, s.cells[b].ready);
      assert forall i :: 0 <= i < |s.cells[b].ready| ==> ParkedOK(s, b, s.cells[b].ready[i]);
    }
  }

  /** The connections parked in some buckets. */
  ghost function ConnsIn(s: State, bs: set<RouteBucket>): set<HalfConn> {
    set hc | hc in s.place && s.place[hc].Parked? && s.place[hc].b in bs
  }

  lemma ConnsInMore(s: State, done: set<RouteBucket>, b: RouteBucket)
    ensures ConnsIn(s, done + {b}) == ConnsIn(s, done) + PlacedAt(s, Parked(b))
  {
  }

  lemma ClosedWhenEmptied(s: State, gone: set<RouteBucket>)
    ensures PlacedAt(Emptied(s, gone), Closed) == PlacedAt(s, Closed) + ConnsIn(s, gone)
  {
  }

  lemma ConnsHold(ready: seq<WarmConn>)
    ensures forall hc :: hc in Conns(ready) <==> Holds(ready, hc)
  {
  }

  lemma DistinctMore(ready: seq<WarmConn>, wc: WarmConn)
    requires Distinct(ready) && wc.hc !in Conns(ready)
    ensures Distinct(ready + [wc])
  {
  }

  lemma ConnsPrefix(ready: seq<WarmConn>, n: nat)
    requires n <= |ready| && Distinct(ready)
    ensures Conns(ready[..n]) <= Conns(ready)
    ensures n < |ready| ==>
      ready[n].hc !in Conns(ready[..n]) && Conns(ready[..n + 1]) == Conns(ready[..n]) + {ready[n].hc}
  {
    if n < |ready| {
      ConnsSplit(ready[..n], ready[n]);
      assert ready[..n + 1] == ready[..n] + [ready[n]];
    }
  }

  /** What the given buckets park before, but no longer after. */
  ghost function Lost(on: set<RouteBucket>, was: map<RouteBucket, Bucket>, goal: map<RouteBucket, Bucket>)
      : set<HalfConn>
    requires on <= was.Keys && on <= goal.Keys
  {
    set b, hc | b in on && hc in Conns(was[b].ready) && hc !in Conns(goal[b].ready) :: hc
  }

  lemma LostMore(on: set<RouteBucket>, todo: set<RouteBucket>, b: RouteBucket, was: map<RouteBucket, Bucket>,
                 goal: map<RouteBucket, Bucket>)
    requires b in todo && todo <= on && on <= was.Keys && on <= goal.Keys
    ensures Lost(on - (todo - {b}), was, goal) ==
            Lost(on - todo, was, goal) + (Conns(was[b].ready) - Conns(goal[b].ready))
  {
    var less, more := on - todo, on - (todo - {b});
    forall hc | hc in Lost(less, was, goal) + (Conns(was[b].ready) - Conns(goal[b].ready))
      ensures hc in Lost(more, was, goal)
    {
      if hc in Lost(less, was, goal) {
        var c :| c in less && hc in Conns(was[c].ready) && hc !in Conns(goal[c].ready);
        assert c in more;
      }
    }
  }

  lemma ClosedWhenMaintained(s: State, on: set<RouteBucket>, cfg: Config, now: int)
    requires cfg.Validated() && forall b :: b in on ==> b in s.cells && b.p in s.epochs
    requires forall b :: b in on ==> Ledgered(s, b)
    ensures var s' := MaintainedOn(s, on, cfg, now);
      PlacedAt(s', Closed) == PlacedAt(s, Closed) + Lost(on, s.cells, s'.cells)
  {
    var s' := MaintainedOn(s, on, cfg, now);
    forall b | b in on
      ensures Lost({b}, s.cells, s'.cells) == set hc | hc in PlacedAt(s, Parked(b)) && !Holds(s'.cells[b].ready, hc)
    {
      ConnsHold(s'.cells[b].ready);
    }
    forall hc | hc in PlacedAt(s', Closed) && hc !in PlacedAt(s, Closed)
      ensures hc in Lost(on, s.cells, s'.cells)
    {
      assert hc in Lost({s.place[hc].b}, s.cells, s'.cells);
    }
    forall hc | hc in Lost(on, s.cells, s'.cells)
      ensures hc in PlacedAt(s', Closed)
    {
      var b :| b in on && hc in Conns(s.cells[b].ready) && hc !in Conns(s'.cells[b].ready);
      assert hc in Lost({b}, s.cells, s'.cells);
    }
  }

  lemma ScheduleMeets(s: State, added: map<Proxy, int>, missing: map<Proxy, int>, idle: int, calm: set<Proxy>,
                      cfg: Config, now: int)
    requires Indexed(s) && added.Keys == s.index.Keys
    requires missing == Missing(s, calm, cfg, now) && idle == TotalIdle(s)
    requires FillsUp(added, missing, cfg.maxTotal - idle)
    ensures IsSchedule(s, added, calm, cfg, now)
  {
  }

  lemma MergedValues(m: map<Proxy, RouteBucket>, n: map<Proxy, RouteBucket>)
    ensures (m + n).Values <= m.Values + n.Values
  {
  }

  lemma EachAdded(index: map<Proxy, RouteBucket>, added: map<Proxy, int>)
    requires forall p :: p in index ==> index[p].p == p
    requires added.Keys <= index.Keys && forall b :: b in index.Values ==> b.p in added
    ensures added.Keys == index.Keys
  {
    assert forall p :: p in index ==> index[p] in index.Values;
  }

  lemma FillsMore(added: map<Proxy, int>, missing: map<Proxy, int>, room: int, p: Proxy, n: int)
    requires FillsUp(added, missing, room) && p in missing && p !in added
    requires 0 <= missing[p] && n == Min(missing[p], Max(0, room - Total(added)))
    ensures FillsUp(added[p := n], missing, room) && Total(added[p := n]) == Total(added) + n
  {
    TotalUpdate(added, p, n);
  }

  lemma {:induction false} RunExtends(s: State, events: seq<Event>, s': State, ev: Event)
    requires Reaches(s, events, s') && Indexed(s') && Enabled(s', ev)
    ensures Reaches(s, events + [ev], Apply(s', ev))
    decreases |events|
  {
    var more := events + [ev];
    if events == [] {
      assert more[1..] == [];
      assert Reaches(Apply(s, ev), [], Apply(s, ev));
    } else {
      assert more[1..] == events[1..] + [ev];
      RunExtends(Apply(s, events[0]), events[1..], s', ev);
    }
  }

  lemma RunIndexed(origin: State, run: seq<Event>, s: State)
    requires Fresh(origin) && Reaches(origin, run, s)
    ensures Indexed(s)
  {
    FreshRunKeeps(origin, run, s);
  }

  lemma TaskKnown(origin: State, run: seq<Event>, s: State, t: Task)
    requires Fresh(origin) && Reaches(origin, run, s) && t in s.tasks
    ensures t.b in s.cells && t.b.p == t.p && t.p in s.epochs
  {
    FreshRunKeeps(origin, run, s);
  }

  lemma OldestParked(origin: State, run: seq<Event>, s: State, b: RouteBucket)
    requires Fresh(origin) && Reaches(origin, run, s) && b in s.cells && s.cells[b].ready != []
    ensures b.p in s.epochs && s.cells[b].ready[0].hc in s.place && s.place[s.cells[b].ready[0].hc] == Parked(b)
  {
    FreshRunKeeps(origin, run, s);
    assert BucketOK(s, b, s.cells[b].ready) && ParkedOK(s, b, s.cells[b].ready[0]);
  }

  lemma PoppedClosed(s: State, b: RouteBucket)
    requires b in s.cells && s.cells[b].ready != []
    requires s.cells[b].ready[0].hc in s.place && s.place[s.cells[b].ready[0].hc] == Parked(b)
    ensures PlacedAt(PoppedState(s, b, Lent), Closed) == PlacedAt(s, Closed)
    ensures PlacedAt(PoppedState(s, b, Closed), Closed) == PlacedAt(s, Closed) + {s.cells[b].ready[0].hc}
  {
  }

  lemma ParkIs(s: State, t: Task, hc: HalfConn, cfg: Config, now: int)
    requires Indexed(s) && Enabled(s, Completed(t, hc, cfg, now)) && Parkable(s, t, cfg)
    ensures var s', b := Apply(s, Completed(t, hc, cfg, now)), s.cells[t.b];
      PlacedAt(s', Closed) == PlacedAt(s, Closed) &&
      s'.cells == s.cells[t.b := b.(flying := b.flying - 1, failStreak := 0, backoffUntil := None,
                                    ready := b.ready + [WarmConn(hc, t.epoch, now)])]
  {
  }

  lemma StopIs(s: State)
    requires Indexed(s)
    ensures var drained := Emptied(s, s.index.Values);
      Apply(s, Stop) == drained.(stopped := true, cells := Cancelled(drained.cells, s.index.Values))
  {
  }

  lemma FailIs(s: State, t: Task, auth: bool, wait: int, now: int)
    requires Indexed(s) && Enabled(s, DialFailed(t, auth, wait, now))
    ensures var s', b := Apply(s, DialFailed(t, auth, wait, now)), s.cells[t.b].(flying := s.cells[t.b].flying - 1);
      s'.place == s.place && s'.index == s.index && s'.epochs == s.epochs && s'.stopped == s.stopped &&
      s'.cells == s.cells[t.b := if auth then b.(authBroken := true, authBrokenEpoch := s.epochs[t.p])
                                 else b.(failStreak := b.failStreak + 1, backoffUntil := Some(now + wait))]
  {
  }

  lemma DropIs(s: State, t: Task, hc: HalfConn, cfg: Config, now: int)
    requires Indexed(s) && Enabled(s, Completed(t, hc, cfg, now)) && !Parkable(s, t, cfg)
    ensures var s', b := Apply(s, Completed(t, hc, cfg, now)), s.cells[t.b];
      PlacedAt(s', Closed) == PlacedAt(s, Closed) + {hc} && s'.cells == s.cells[t.b := b.(flying := b.flying - 1)]
  {
  }

  ghost predicate Ready(s: State) {
    Indexed(s) && forall b :: b in s.cells ==> Ledgered(s, b)
  }

  lemma RunReady(origin: State, run: seq<Event>, s: State)
    requires Fresh(origin) && Reaches(origin, run, s)
    ensures Ready(s)
  {
    FreshRunKeeps(origin, run, s);
    InvLedgered(s);
  }

  // The stages of a sweep after a run, as far as the pool needs them.

  lemma PrunedReady(origin: State, run: seq<Event>, s: State, live: set<Proxy>)
    requires Fresh(origin) && Reaches(origin, run, s)
    ensures Ready(s) && Ready(Pruned(s, live)) && Pruned(s, live).index.Keys == s.index.Keys * live
  {
    FreshRunKeeps(origin, run, s);
    InvLedgered(s);
    PrunedKeeps(s, live);
    InvLedgered(Pruned(s, live));
  }

  lemma AdoptedReady(origin: State, run: seq<Event>, s: State, live: set<Proxy>, made: map<Proxy, RouteBucket>)
    requires Fresh(origin) && Reaches(origin, run, s) && MadeFor(Pruned(s, live), live, made)
    ensures MadeFor(s, live, made) && Ready(Adopted(Pruned(s, live), made))
  {
    FreshRunKeeps(origin, run, s);
    PrunedKeeps(s, live);
    AdoptedKeeps(Pruned(s, live), live, made);
    InvLedgered(Adopted(Pruned(s, live), made));
  }

  lemma MaintainedReady(origin: State, run: seq<Event>, s: State, live: set<Proxy>, made: map<Proxy, RouteBucket>,
                        cfg: Config, now: int)
    requires Fresh(origin) && Reaches(origin, run, s) && MadeFor(Pruned(s, live), live, made) && cfg.Validated()
    ensures Indexed(s) && MadeFor(s, live, made) && Ready(Maintenance(s, live, made, cfg, now))
  {
    FreshRunKeeps(origin, run, s);
    PrunedKeeps(s, live);
    AdoptedKeeps(Pruned(s, live), live, made);
    MaintainedKeeps(Adopted(Pruned(s, live), made), cfg, now);
    InvLedgered(Maintenance(s, live, made, cfg, now));
  }

  // The jittered backoff of warm dials: a tenth up or down.
  method WarmBackoff(streak: int, factor: real) returns (wait: int)
    requires 0.0 <= factor < 1.0
    ensures var base := Saturated(SECOND as int, 8 * SECOND as int, streak);
      base - base / 10 <= wait <= base + base / 10
  {
    var cooldown := SaturatingCooldown(SECOND, 8 * SECOND, streak);
    var base := cooldown as int;
    SaturatedRange(SECOND as int, 8 * SECOND as int, streak);
    var delta := base as real * (factor * 0.2 - 0.1);
    DeltaRange(base as real, factor * 0.2 - 0.1);
    assert -(base as real / 10.0) <= delta <= base as real / 10.0;
    wait := base + if delta >= 0.0 then delta.Floor else -(-delta).Floor;
    TenthRange(base, if delta >= 0.0 then delta else -delta);
  }

  /** Whole nanoseconds of at most a tenth. */
  lemma TenthRange(base: int, delta: real)
    requires 0.0 <= delta <= base as real / 10.0
    ensures 0 <= delta.Floor <= base / 10
  {
    assert delta.Floor as real <= base as real / 10.0;
    assert (10 * delta.Floor) as real <= base as real;
  }

  lemma DeltaRange(base: real, share: real)
    requires 0.0 <= base && -0.1 <= share <= 0.1
    ensures -(base / 10.0) <= base * share <= base / 10.0
  {
    var up, down := 0.1 - share, 0.1 + share;
    assert 0.0 <= base * up && 0.0 <= base * down;
    assert base * share == base / 10.0 - base * up;
    assert base * share == base * down - base / 10.0;
  }

  // ---- The pool

  /** Whatever has been done to a pool since it was made, the invariants of every
      run hold of it; its bounds are those of any ceiling on the configurations. */
  lemma PoolInvariants(wp: WarmPool, top: Config)
    requires wp.Valid() && top.Validated()
    ensures Indexed(wp.model) && OwnedOnce(wp.model) && Conserved(wp.model)
    ensures (forall ev :: ev in wp.run ==> Within(ev, top)) ==> Bounded(wp.model, top)
    ensures forall p, cfg :: Isolated(wp.model, wp.run, p, cfg)
  {
    FreshRunKeeps(wp.origin, wp.run, wp.model);
    OneOwner(wp.origin, wp.run, wp.model);
    ReservationsConserved(wp.origin, wp.run, wp.model);
    FreshBounded(wp.origin, top);
    if forall ev :: ev in wp.run ==> Within(ev, top) {
      BoundsHold(wp.origin, wp.run, wp.model, top);
    }
    forall p, cfg | Borrowed(wp.model, p, cfg).Some?
      ensures Isolated(wp.model, wp.run, p, cfg)
    {
      var i := RotationIsolation(wp.origin, wp.run, wp.model, p, cfg);
    }
  }

  class WarmPool {
    var buckets: map<Proxy, RouteBucket>
    var stopped: bool
    ghost var closed: set<HalfConn>   // what the pool has closed
    ghost var origin: State           // the run so far, from the new pool on
    ghost var run: seq<Event>
    ghost var model: State

    /** The heap is in this state of the protocol. */
    ghost predicate In(s: State)
      reads this, s.cells.Keys, s.epochs.Keys
    {
      s.index == buckets && s.stopped == stopped &&
      (forall b :: b in s.cells ==> b.View() == s.cells[b]) &&
      (forall p :: p in s.epochs ==> p.rotationEpoch == s.epochs[p]) &&
      closed == PlacedAt(s, Closed)
    }

    ghost predicate Valid()
      reads this, model.cells.Keys, model.epochs.Keys
    {
      Fresh(origin) && Reaches(origin, run, model) && In(model)
    }

    method CloseEach(conns: seq<WarmConn>)
      modifies this`closed
      ensures closed == old(closed) + Conns(conns)
    {
      var i := 0;
      while i < |conns|
        invariant i <= |conns|
        invariant closed == old(closed) + Conns(conns[..i])
      {
        ConnsSplit(conns[..i], conns[i]);
        assert conns[..i + 1] == conns[..i] + [conns[i]];
        closed := closed + {conns[i].hc};
        i := i + 1;
      }
      assert conns[..i] == conns;
    }

    method CloseReady(b: RouteBucket)
      modifies b`ready, this`closed
      ensures b.ready == [] && closed == old(closed) + Conns(old(b.ready))
    {
      CloseEach(b.ready);
      b.ready := [];
    }

    method CloseReadyOf(gone: set<RouteBucket>, ghost s: State)
      requires forall b :: b in gone ==> Ledgered(s, b) && b.ready == s.cells[b].ready
      modifies gone`ready, this`closed
      ensures forall b :: b in gone ==> b.ready == []
      ensures closed == old(closed) + ConnsIn(s, gone)
    {
      var todo := gone;
      while todo != {}
        modifies gone`ready, this`closed
        invariant todo <= gone
        invariant forall b :: b in gone ==> b.ready == if b in todo then s.cells[b].ready else []
        invariant closed == old(closed) + ConnsIn(s, gone - todo)
      {
        var b :| b in todo;
        ConnsInMore(s, gone - todo, b);
        assert gone - (todo - {b}) == gone - todo + {b};
        CloseReady(b);
        todo := todo - {b};
      }
    }

    method Empty(gone: set<RouteBucket>, ghost s: State)
      requires In(s) && forall b :: b in gone ==> Ledgered(s, b)
      modifies gone`ready, this`closed
      ensures In(Emptied(s, gone))
    {
      CloseReadyOf(gone, s);
      ClosedWhenEmptied(s, gone);
    }

    // An auth failure is forgotten once the route has rotated.
    method ForgiveAuth(on: set<RouteBucket>)
      modifies on`authBroken
      ensures forall b :: b in on ==> b.authBroken == (old(b.authBroken) && b.authBrokenEpoch == b.p.rotationEpoch)
    {
      forall b | b in on {
        b.authBroken := b.authBroken && b.authBrokenEpoch == b.p.rotationEpoch;
      }
    }

    // The sweep's filter over one bucket, in place, then the trim from the newest.
    method Refresh(b: RouteBucket, cfg: Config, now: int)
      requires cfg.Validated() && Distinct(b.ready)
      modifies b`ready, this`closed
      ensures b.ready == SweptReady(old(b.ready), b.p.rotationEpoch, cfg, now)
      ensures closed == old(closed) + (Conns(old(b.ready)) - Conns(b.ready))
    {
      FilterReady(b, cfg, now);
      TrimReady(b, cfg.maxIdle);
    }

    method FilterReady(b: RouteBucket, cfg: Config, now: int)
      requires Distinct(b.ready)
      modifies b`ready, this`closed
      ensures b.ready == Retained(old(b.ready), b.p.rotationEpoch, now, cfg.idleTTL)
      ensures Distinct(b.ready) && Conns(b.ready) <= Conns(old(b.ready))
      ensures closed == old(closed) + (Conns(old(b.ready)) - Conns(b.ready))
    {
      var keep: seq<WarmConn> := [];
      var i := 0;
      while i < |b.ready|
        modifies this`closed
        invariant i <= |b.ready|
        invariant keep == Retained(b.ready[..i], b.p.rotationEpoch, now, cfg.idleTTL)
        invariant Distinct(keep) && Conns(keep) <= Conns(b.ready[..i])
        invariant closed == old(closed) + (Conns(b.ready[..i]) - Conns(keep))
      {
        var wc := b.ready[i];
        ConnsPrefix(b.ready, i);
        assert b.ready[..i + 1][..i] == b.ready[..i];
        if wc.epoch != b.p.rotationEpoch || now - wc.created > cfg.idleTTL {
          closed := closed + {wc.hc};
        } else {
          ConnsSplit(keep, wc);
          DistinctMore(keep, wc);
          keep := keep + [wc];
        }
        i := i + 1;
      }
      assert b.ready[..i] == b.ready;
      b.ready := keep;
    }

    method TrimReady(b: RouteBucket, bound: int)
      requires Distinct(b.ready) && 0 <= bound
      modifies b`ready, this`closed
      ensures b.ready == Trimmed(old(b.ready), bound) && Conns(b.ready) <= Conns(old(b.ready))
      ensures closed == old(closed) + (Conns(old(b.ready)) - Conns(b.ready))
    {
      ghost var was := b.ready;
      assert was == was[..|was|];
      while |b.ready| > bound
        modifies b`ready, this`closed
        invariant |b.ready| <= |was| && b.ready == was[..|b.ready|]
        invariant |was| <= bound ==> b.ready == was
        invariant |was| > bound ==> |b.ready| >= bound
        invariant Conns(b.ready) <= Conns(was)
        invariant closed == old(closed) + (Conns(was) - Conns(b.ready))
        decreases |b.ready|
      {
        var i := |b.ready| - 1;
        var wc := b.ready[i];
        ConnsPrefix(was, i);
        ConnsPrefix(was, |b.ready|);
        b.ready := b.ready[..i];
        assert b.ready == was[..i];
        closed := closed + {wc.hc};
      }
    }

    method RefreshEach(on: set<RouteBucket>, cfg: Config, now: int,
                       ghost was: map<RouteBucket, Bucket>, ghost goal: map<RouteBucket, Bucket>)
      requires cfg.Validated() && on <= was.Keys && on <= goal.Keys
      requires forall b :: b in on ==> b.ready == was[b].ready && Distinct(was[b].ready)
      requires forall b {:trigger SweptReady(was[b].ready, b.p.rotationEpoch, cfg, now)} :: b in on ==>
        goal[b].ready == SweptReady(was[b].ready, b.p.rotationEpoch, cfg, now)
      modifies on`ready, this`closed
      ensures forall b :: b in on ==> b.ready == goal[b].ready
      ensures closed == old(closed) + Lost(on, was, goal)
    {
      var todo := on;
      assert Lost({}, was, goal) == {};
      while todo != {}
        modifies on`ready, this`closed
        invariant todo <= on
        invariant forall b :: b in on ==> b.ready == if b in todo then was[b].ready else goal[b].ready
        invariant closed == old(closed) + Lost(on - todo, was, goal)
      {
        var b :| b in todo;
        LostMore(on, todo, b, was, goal);
        Refresh(b, cfg, now);
        todo := todo - {b};
      }
    }

    method RefreshAll(on: set<RouteBucket>, cfg: Config, now: int,
                      ghost was: map<RouteBucket, Bucket>, ghost goal: map<RouteBucket, Bucket>)
      requires cfg.Validated() && on <= was.Keys && on <= goal.Keys
      requires forall b :: b in on ==> b.View() == was[b] && Distinct(was[b].ready)
      requires forall b :: b in on ==> goal[b] == Maintained(was[b], b.p.rotationEpoch, cfg, now)
      modifies on`ready, on`authBroken, this`closed
      ensures forall b :: b in on ==> b.View() == goal[b]
      ensures closed == old(closed) + Lost(on, was, goal)
    {
      assert forall b :: b in on ==> b.ready == was[b].ready;
      ForgiveAuth(on);
      RefreshEach(on, cfg, now, was, goal);
    }

    method Maintain(cfg: Config, now: int, ghost s: State)
      requires In(s) && Ready(s) && cfg.Validated()
      modifies buckets.Values`ready, buckets.Values`authBroken, this`closed
      ensures In(MaintainedAll(s, cfg, now))
    {
      ClosedWhenMaintained(s, buckets.Values, cfg, now);
      RefreshAll(buckets.Values, cfg, now, s.cells, MaintainedAll(s, cfg, now).cells);
    }

    // Routes that are gone lose their bucket.
    method DropDead(live: set<Proxy>, ghost s: State)
      requires In(s) && Ready(s)
      modifies buckets.Values`ready, this`buckets, this`closed
      ensures In(Pruned(s, live)) && buckets.Values <= old(buckets.Values)
    {
      Empty(Dead(buckets, live), s);
      buckets := Surviving(buckets, live);
    }

    // Every live route gets a bucket.
    method Adopt(live: set<Proxy>, ghost s: State) returns (made: map<Proxy, RouteBucket>)
      requires In(s) && Indexed(s) && live <= s.epochs.Keys && buckets.Keys <= live
      modifies this`buckets
      ensures MadeFor(s, live, made) && In(Adopted(s, made))
      ensures forall b :: b in buckets.Values ==> b in old(buckets.Values) || fresh(b)
    {
      made := NewBuckets(live - buckets.Keys, s.cells);
      MergedValues(buckets, made);
      buckets := buckets + made;
    }

    method NewBuckets(routes: set<Proxy>, ghost cells: map<RouteBucket, Bucket>) returns (made: map<Proxy, RouteBucket>)
      requires forall b :: b in cells ==> b.View() == cells[b]
      ensures made.Keys == routes
      ensures forall p :: p in made ==> made[p].p == p && made[p] !in cells
      ensures forall b :: b in made.Values ==> fresh(b)
      ensures forall b :: b in Opened(cells, made) ==> b.View() == Opened(cells, made)[b]
    {
      made := map[];
      var todo := routes;
      while todo != {}
        invariant todo <= routes && made.Keys == routes - todo
        invariant forall p :: p in made ==> made[p].p == p && fresh(made[p]) && made[p].View() == EMPTY
      {
        var p :| p in todo;
        var b := new RouteBucket(p);
        made, todo := made[p := b], todo - {p};
      }
    }

    /** A route in shape for new dials. */
    predicate Calm(p: Proxy, now: int)
      reads p
    {
      !p.rotating && !p.authBlocked && !(p.cooldownUntil != 0 && now < p.cooldownUntil)
    }

    ghost function CalmRoutes(now: int): set<Proxy>
      reads this, buckets.Keys
    {
      set p | p in buckets && Calm(p, now)
    }

    method TotalIdleOf(ghost s: State) returns (n: int)
      requires In(s) && Indexed(s)
      ensures n == TotalIdle(s)
    {
      n := 0;
      var todo := buckets.Keys;
      ghost var counted: map<Proxy, int> := map[];
      while todo != {}
        invariant todo <= buckets.Keys
        invariant counted == map p | p in buckets && p !in todo :: IdleCounts(s)[p]
        invariant n == Total(counted)
      {
        var p :| p in todo;
        TotalUpdate(counted, p, |s.cells[buckets[p]].ready|);
        n := n + |buckets[p].ready|;
        assert buckets[p].View() == s.cells[buckets[p]];
        counted := counted[p := |s.cells[buckets[p]].ready|];
        todo := todo - {p};
      }
      assert counted == IdleCounts(s);
    }

    /** May receive new dials now. */
    predicate ReplenishEligible(p: Proxy, b: RouteBucket, now: int)
      reads p, b
    {
      Calm(p, now) && !b.authBroken && !(b.backoffUntil.Some? && now < b.backoffUntil.value)
    }

    // Schedules the missing dials of one route, as far as there is room.
    method Fill(b: RouteBucket, cfg: Config, total: int) returns (n: int)
      modifies b`pending
      ensures b.pending == old(b.pending) + n
      ensures n == Max(0, Min(cfg.minIdle - old(b.View().Owed()), cfg.maxTotal - total))
    {
      var deficit := cfg.minIdle - (|b.ready| + b.pending + b.flying);
      n := 0;
      while deficit > 0 && total + n < cfg.maxTotal
        modifies b`pending
        invariant b.pending == old(b.pending) + n
        invariant 0 <= n && deficit == cfg.minIdle - old(b.View().Owed()) - n
        invariant n <= Max(0, Min(cfg.minIdle - old(b.View().Owed()), cfg.maxTotal - total))
        decreases deficit
      {
        b.pending := b.pending + 1;
        n := n + 1;
        deficit := deficit - 1;
      }
    }

    ghost predicate IsShort(b: RouteBucket, missing: int, cfg: Config, now: int)
      reads b, b.p
    {
      missing == if ReplenishEligible(b.p, b, now) then Max(0, cfg.minIdle - b.View().Owed()) else 0
    }

    method FillRoute(b: RouteBucket, cfg: Config, now: int, total: int, ghost missing: int) returns (n: int)
      requires IsShort(b, missing, cfg, now)
      modifies b`pending
      ensures b.pending == old(b.pending) + n && n == Min(missing, Max(0, cfg.maxTotal - total))
    {
      n := 0;
      if ReplenishEligible(b.p, b, now) {
        n := Fill(b, cfg, total);
      }
    }

    // Schedules what is missing, route by route, as long as there is room.
    method FillDeficits(on: set<RouteBucket>, cfg: Config, now: int, idle: int, ghost missing: map<Proxy, int>)
        returns (ghost added: map<Proxy, int>)
      requires forall b :: b in on ==> b.p in missing
      requires forall b, c :: b in on && c in on && b.p == c.p ==> b == c
      requires forall b {:trigger IsShort(b, missing[b.p], cfg, now)} :: b in on ==> IsShort(b, missing[b.p], cfg, now)
      modifies on`pending
      ensures FillsUp(added, missing, cfg.maxTotal - idle)
      ensures forall b :: b in on ==> b.p in added && b.pending == old(b.pending) + added[b.p]
    {
      added := map[];
      var total, todo := idle, on;
      while todo != {}
        modifies on`pending
        invariant todo <= on && forall b :: b in on ==> (b.p in added <==> b !in todo)
        invariant total == idle + Total(added) && FillsUp(added, missing, cfg.maxTotal - idle)
        invariant forall b :: b in on ==> b.pending == old(b.pending) + if b in todo then 0 else added[b.p]
      {
        var b :| b in todo;
        assert old(IsShort(b, missing[b.p], cfg, now));
        var n := FillRoute(b, cfg, now, total, missing[b.p]);
        FillsMore(added, missing, cfg.maxTotal - idle, b.p, n);
        total, todo, added := total + n, todo - {b}, added[b.p := n];
      }
    }

    lemma EachShort(s: State, calm: set<Proxy>, cfg: Config, now: int)
      requires In(s) && Indexed(s)
      requires forall p :: p in buckets ==> (p in calm <==> Calm(p, now))
      ensures forall b :: b in buckets.Values ==>
        b.p in buckets && IsShort(b, Missing(s, calm, cfg, now)[b.p], cfg, now)
    {
      forall b | b in buckets.Values
        ensures b.p in buckets && IsShort(b, Missing(s, calm, cfg, now)[b.p], cfg, now)
      {
        assert b.View() == s.cells[b];
      }
    }

    method FillBuckets(on: set<RouteBucket>, cfg: Config, now: int, idle: int,
                       ghost missing: map<Proxy, int>, ghost was: map<RouteBucket, Bucket>)
        returns (ghost added: map<Proxy, int>)
      requires forall b :: b in on ==> b.p in missing
      requires forall b, c :: b in on && c in on && b.p == c.p ==> b == c
      requires forall b {:trigger IsShort(b, missing[b.p], cfg, now)} :: b in on ==> IsShort(b, missing[b.p], cfg, now)
      requires on <= was.Keys && forall b :: b in was ==> b.View() == was[b]
      modifies on`pending
      ensures FillsUp(added, missing, cfg.maxTotal - idle)
      ensures forall b :: b in on ==> b.p in added
      ensures forall b :: b in was ==> b.View() == Raised(was, on, added)[b]
    {
      assert forall b :: b in on ==> b.pending == was[b].pending;
      added := FillDeficits(on, cfg, now, idle, missing);
    }

    method ScheduleDeficits(cfg: Config, now: int, idle: int, ghost missing: map<Proxy, int>, ghost s: State)
        returns (ghost added: map<Proxy, int>)
      requires In(s) && Indexed(s) && missing.Keys == buckets.Keys
      requires forall b {:trigger IsShort(b, missing[b.p], cfg, now)} :: b in buckets.Values ==>
        IsShort(b, missing[b.p], cfg, now)
      modifies buckets.Values`pending
      ensures added.Keys == s.index.Keys && FillsUp(added, missing, cfg.maxTotal - idle)
      ensures In(Scheduled(s, added))
    {
      added := FillBuckets(buckets.Values, cfg, now, idle, missing, s.cells);
      EachAdded(s.index, added);
    }

    // ---- The run

    /** The heap has taken a step of the protocol. */
    ghost method Record(ev: Event)
      requires Fresh(origin) && Reaches(origin, run, model) && Indexed(model) && Enabled(model, ev)
      requires In(Apply(model, ev))
      modifies this`run, this`model
      ensures Valid() && run == old(run) + [ev] && model == Apply(old(model), ev)
    {
      RunExtends(origin, run, model, ev);
      run, model := run + [ev], Apply(model, ev);
    }

    constructor ()
      ensures Valid() && run == [] && buckets == map[] && !stopped
    {
      buckets, stopped, closed := map[], false, {};
      origin := State(map[], map[], map[], false, 0, {}, map[], map[]);
      run, model := [], State(map[], map[], map[], false, 0, {}, map[], map[]);
    }

    /** The pool meets the routes of a generation. */
    ghost method Meet(live: set<Proxy>)
      requires Valid()
      modifies this`run, this`model
      ensures Valid() && live <= model.epochs.Keys
      ensures exists seen :: run == old(run) + [Seen(seen)]
    {
      var seen := map p | p in live && p !in model.epochs :: p.rotationEpoch;
      RunIndexed(origin, run, model);
      Record(Seen(seen));
    }

    // Dead routes lose their bucket, new ones get one.
    method Reindex(live: set<Proxy>) returns (made: map<Proxy, RouteBucket>)
      requires Valid() && live <= model.epochs.Keys
      modifies this`buckets, this`closed, buckets.Values`ready
      ensures MadeFor(Pruned(model, live), live, made) && In(Adopted(Pruned(model, live), made))
      ensures forall b :: b in buckets.Values ==> b in old(buckets.Values) || fresh(b)
    {
      PrunedReady(origin, run, model, live);
      DropDead(live, model);
      made := Adopt(live, Pruned(model, live));
    }

    // The first part of a sweep: the index, then stale connections closed.
    method Upkeep(live: set<Proxy>, cfg: Config, now: int) returns (made: map<Proxy, RouteBucket>)
      requires Valid() && cfg.Validated() && live <= model.epochs.Keys
      modifies this`buckets, this`closed, buckets.Values`ready, buckets.Values`authBroken
      ensures Indexed(model) && MadeFor(model, live, made) && In(Maintenance(model, live, made, cfg, now))
      ensures Ready(Maintenance(model, live, made, cfg, now))
      ensures forall b :: b in buckets.Values ==> b in old(buckets.Values) || fresh(b)
    {
      made := Reindex(live);
      AdoptedReady(origin, run, model, live, made);
      Maintain(cfg, now, Adopted(Pruned(model, live), made));
      MaintainedReady(origin, run, model, live, made, cfg, now);
    }

    // One level-triggered pass over the live routes of a generation.
    method Sweep(live: set<Proxy>, cfg: Config, now: int) returns (ghost ev: Event)
      requires Valid() && cfg.Validated()
      modifies this, buckets.Values`ready, buckets.Values`authBroken, buckets.Values`pending
      ensures Valid() && ev.Sweep? && ev.live == live && ev.cfg == cfg && ev.now == now
      ensures exists seen :: run == old(run) + [Seen(seen), ev]
    {
      Meet(live);
      if stopped {
        ev := Event.Sweep(live, map[], {}, cfg, now, map[]);
        RunIndexed(origin, run, model);
        Record(ev);
      } else {
        ev := SweepRunning(live, cfg, now);
      }
    }

    method SweepRunning(live: set<Proxy>, cfg: Config, now: int) returns (ghost ev: Event)
      requires Valid() && !stopped && cfg.Validated() && live <= model.epochs.Keys
      modifies this, buckets.Values`ready, buckets.Values`authBroken, buckets.Values`pending
      ensures Valid() && ev.Sweep? && ev.live == live && ev.cfg == cfg && ev.now == now
      ensures run == old(run) + [ev]
    {
      var made := Upkeep(live, cfg, now);
      ev := RefillAfter(live, made, cfg, now);
    }

    method RefillAfter(ghost live: set<Proxy>, ghost made: map<Proxy, RouteBucket>, cfg: Config, now: int)
        returns (ghost ev: Event)
      requires Fresh(origin) && Reaches(origin, run, model) && Indexed(model) && !model.stopped
      requires cfg.Validated() && MadeFor(model, live, made)
      requires Ready(Maintenance(model, live, made, cfg, now)) && In(Maintenance(model, live, made, cfg, now))
      modifies this`run, this`model, this`closed, buckets.Values`ready, buckets.Values`pending
      ensures Valid() && ev.Sweep? && ev.live == live && ev.cfg == cfg && ev.now == now
      ensures run == old(run) + [ev]
    {
      ghost var calm := CalmRoutes(now);
      ghost var added := Refill(calm, cfg, now, Maintenance(model, live, made, cfg, now));
      ev := Event.Sweep(live, made, calm, cfg, now, added);
      RecordSweep(ev);
    }

    ghost method RecordSweep(ev: Event)
      requires Fresh(origin) && Reaches(origin, run, model) && Indexed(model) && !model.stopped
      requires ev.Sweep? && ev.cfg.Validated() && MadeFor(model, ev.live, ev.made)
      requires Indexed(Maintenance(model, ev.live, ev.made, ev.cfg, ev.now))
      requires Refilled(Maintenance(model, ev.live, ev.made, ev.cfg, ev.now), ev.calm, ev.cfg, ev.now, ev.added)
      modifies this`run, this`model
      ensures Valid() && run == old(run) + [ev]
    {
      Record(ev);
    }

    /** The pool after the last part of a sweep. */
    ghost predicate Refilled(kept: State, calm: set<Proxy>, cfg: Config, now: int, added: map<Proxy, int>)
      requires Indexed(kept)
      reads this, kept.cells.Keys, kept.epochs.Keys
    {
      if cfg.enabled then IsSchedule(kept, added, calm, cfg, now) && In(Scheduled(kept, added))
      else In(Emptied(kept, kept.index.Values))
    }

    // The last part of a sweep: a disabled pool is drained, an enabled one
    // schedules its deficits.
    method Refill(ghost calm: set<Proxy>, cfg: Config, now: int, ghost s: State) returns (ghost added: map<Proxy, int>)
      requires In(s) && Ready(s)
      requires forall p :: p in buckets ==> (p in calm <==> Calm(p, now))
      modifies this`closed, buckets.Values`ready, buckets.Values`pending
      ensures Refilled(s, calm, cfg, now, added)
    {
      if cfg.enabled {
        var idle := TotalIdleOf(s);
        EachShort(s, calm, cfg, now);
        ghost var missing := Missing(s, calm, cfg, now);
        added := ScheduleDeficits(cfg, now, idle, missing, s);
        ScheduleMeets(s, added, missing, idle, calm, cfg, now);
      } else {
        added := map[];
        Empty(buckets.Values, s);
      }
    }

    /** A scheduled dial of the bucket may go out now, as far as the route goes. */
    predicate MayClaim(p: Proxy, b: RouteBucket, cfg: Config, now: int)
      reads p, b
    {
      b.pending != 0 && !(cfg.perRoute > 0 && b.flying >= cfg.perRoute) && ReplenishEligible(p, b, now)
    }

    // Some bucket with a dial to claim, if there is one.
    method FindClaimable(cfg: Config, now: int) returns (found: Option<Proxy>)
      ensures found.Some? ==> found.value in buckets && MayClaim(found.value, buckets[found.value], cfg, now)
      ensures found.None? ==> forall p :: p in buckets ==> !MayClaim(p, buckets[p], cfg, now)
    {
      var todo := buckets.Keys;
      while todo != {}
        invariant todo <= buckets.Keys
        invariant forall p :: p in buckets && p !in todo ==> !MayClaim(p, buckets[p], cfg, now)
      {
        var p :| p in todo;
        if MayClaim(p, buckets[p], cfg, now) {
          return Some(p);
        }
        todo := todo - {p};
      }
      return None;
    }

    // The route of some dial that may be claimed: every bound checked again.
    method FindTask(cfg: Config, dialing: int, now: int) returns (route: Option<Proxy>)
      requires Valid() && Indexed(model)
      ensures route.Some? ==> dialing < cfg.maxConcurrency && Claimable(model, route.value, CalmRoutes(now), cfg, now)
      ensures route.None? && dialing < cfg.maxConcurrency ==>
        forall p :: p in buckets ==> !Claimable(model, p, CalmRoutes(now), cfg, now)
    {
      if stopped || !cfg.enabled {
        return None;
      }
      var idle := TotalIdleOf(model);
      if idle >= cfg.maxTotal || dialing >= cfg.maxConcurrency {
        return None;
      }
      route := FindClaimable(cfg, now);
      AllClaimable(cfg, now);
    }

    // Takes one scheduled dial, if there is one.
    method ClaimTask(cfg: Config, dialing: int, now: int)
        returns (found: Option<RouteBucket>, epoch: nat, ghost calm: set<Proxy>, ghost t: Option<Task>)
      requires Valid()
      modifies this`run, this`model, buckets.Values`pending, buckets.Values`flying
      ensures Valid() && calm == old(CalmRoutes(now)) && found.Some? == t.Some?
      ensures found.Some? ==> t.value.b == found.value && t.value.epoch == epoch && dialing < cfg.maxConcurrency
      ensures found.Some? ==> run == old(run) + [Event.Claim(t.value, calm, cfg, now)]
      ensures found.None? ==> run == old(run) && model == old(model)
      ensures Indexed(model)
      ensures found.None? && dialing < cfg.maxConcurrency ==>
        forall p :: p in buckets ==> !Claimable(model, p, calm, cfg, now)
    {
      RunIndexed(origin, run, model);
      calm := CalmRoutes(now);
      var route := FindTask(cfg, dialing, now);
      if route.None? {
        return None, 0, calm, None;
      }
      var b := buckets[route.value];
      epoch := b.p.rotationEpoch;
      ghost var task := Claim(b, calm, cfg, now);
      found, t := Some(b), Some(task);
      RunIndexed(origin, run, model);
    }

    method Claim(b: RouteBucket, ghost calm: set<Proxy>, cfg: Config, now: int) returns (ghost t: Task)
      requires Valid() && Indexed(model) && Claimable(model, b.p, calm, cfg, now) && buckets[b.p] == b
      modifies this`run, this`model, b`pending, b`flying
      ensures Valid() && t.b == b && t.epoch == b.p.rotationEpoch
      ensures run == old(run) + [Event.Claim(t, calm, cfg, now)]
    {
      t := Task(model.claims, b.p, b, b.p.rotationEpoch);
      assert b.View() == model.cells[b];
      b.pending, b.flying := b.pending - 1, b.flying + 1;
      Record(Event.Claim(t, calm, cfg, now));
    }

    lemma AllClaimable(cfg: Config, now: int)
      requires In(model) && Indexed(model) && !stopped && cfg.enabled && TotalIdle(model) < cfg.maxTotal
      ensures forall p :: p in buckets ==>
        (Claimable(model, p, CalmRoutes(now), cfg, now) <==> MayClaim(p, buckets[p], cfg, now))
    {
      forall p | p in buckets
        ensures Claimable(model, p, CalmRoutes(now), cfg, now) <==> MayClaim(p, buckets[p], cfg, now)
      {
        assert buckets[p].View() == model.cells[buckets[p]];
      }
    }

    /** A dial came back with a connection, not yet in the pool. */
    ghost method DialReturned(t: Task, hc: HalfConn)
      requires Valid() && Indexed(model) && Enabled(model, Returned(t, hc))
      modifies this`run, this`model
      ensures Valid() && run == old(run) + [Returned(t, hc)] && model == Apply(old(model), Returned(t, hc))
    {
      Record(Returned(t, hc));
    }

    // The critical section after a dial that succeeded: everything is checked
    // again, and the connection parked or closed.
    method CompleteDial(b: RouteBucket, epoch: nat, hc: HalfConn, cfg: Config, now: int, ghost t: Task)
      requires Valid() && t.b == b && t.epoch == epoch
      requires Indexed(model) && Enabled(model, Completed(t, hc, cfg, now))
      modifies this`run, this`model, this`closed, b
      ensures Valid() && run == old(run) + [Completed(t, hc, cfg, now)]
    {
      TaskKnown(origin, run, model, t);
      var park := ParksNow(b, epoch, cfg, t);
      if park {
        Park(b, epoch, hc, cfg, now, t);
      } else {
        Drop(b, hc, cfg, now, t);
      }
    }

    method Park(b: RouteBucket, epoch: nat, hc: HalfConn, cfg: Config, now: int, ghost t: Task)
      requires Valid() && Indexed(model) && Enabled(model, Completed(t, hc, cfg, now))
      requires t.b == b && t.epoch == epoch && Parkable(model, t, cfg)
      modifies this`run, this`model, b`flying, b`failStreak, b`backoffUntil, b`ready
      ensures Valid() && run == old(run) + [Completed(t, hc, cfg, now)]
    {
      Land(b, epoch, hc, cfg, now, t, model);
      Record(Completed(t, hc, cfg, now));
    }

    // The stamp is the claim's, never read again.
    method Land(b: RouteBucket, epoch: nat, hc: HalfConn, ghost cfg: Config, now: int, ghost t: Task, ghost s: State)
      requires In(s) && Indexed(s) && Enabled(s, Completed(t, hc, cfg, now)) && Parkable(s, t, cfg)
      requires t.b == b && t.epoch == epoch
      modifies b`flying, b`failStreak, b`backoffUntil, b`ready
      ensures In(Apply(s, Completed(t, hc, cfg, now)))
    {
      ParkIs(s, t, hc, cfg, now);
      assert b.View() == s.cells[b];
      b.Put(WarmConn(hc, epoch, now));
      forall c | c in s.cells && c != b
        ensures c.View() == s.cells[c]
      {
      }
    }

    method Drop(b: RouteBucket, hc: HalfConn, cfg: Config, now: int, ghost t: Task)
      requires Valid() && Indexed(model) && Enabled(model, Completed(t, hc, cfg, now))
      requires t.b == b && !Parkable(model, t, cfg)
      modifies this`run, this`model, this`closed, b`flying
      ensures Valid() && run == old(run) + [Completed(t, hc, cfg, now)]
    {
      CloseReturned(b, hc, cfg, now, t, model);
      Record(Completed(t, hc, cfg, now));
    }

    method CloseReturned(b: RouteBucket, hc: HalfConn, ghost cfg: Config, ghost now: int, ghost t: Task, ghost s: State)
      requires In(s) && Indexed(s) && Enabled(s, Completed(t, hc, cfg, now)) && t.b == b && !Parkable(s, t, cfg)
      modifies this`closed, b`flying
      ensures In(Apply(s, Completed(t, hc, cfg, now)))
    {
      DropIs(s, t, hc, cfg, now);
      assert b.View() == s.cells[b];
      b.flying := b.flying - 1;
      closed := closed + {hc};
    }

    method ParksNow(b: RouteBucket, epoch: nat, cfg: Config, ghost t: Task) returns (park: bool)
      requires In(model) && Indexed(model) && t.b == b && t.epoch == epoch && b.p == t.p && b in model.cells &&
        t.p in model.epochs
      ensures park == Parkable(model, t, cfg)
    {
      if b.p.rotationEpoch != epoch || stopped {
        return false;
      }
      var idle := TotalIdleOf(model);
      assert b.View() == model.cells[b];
      park := b.p in buckets && buckets[b.p] == b && cfg.enabled && |b.ready| < cfg.maxIdle && idle < cfg.maxTotal;
    }

    // The critical section after a dial that failed: the route backs off, or
    // is not dialled again before it rotates.
    method FailDial(b: RouteBucket, auth: bool, factor: real, now: int, ghost t: Task) returns (ghost wait: int)
      requires Valid() && t.b == b && Indexed(model) && Enabled(model, DialFailed(t, auth, 0, now))
      requires 0.0 <= factor < 1.0
      modifies this`run, this`model, b`flying, b`authBroken, b`authBrokenEpoch, b`failStreak, b`backoffUntil
      ensures Valid() && run == old(run) + [DialFailed(t, auth, wait, now)]
      ensures var base := Saturated(SECOND as int, 8 * SECOND as int, old(b.failStreak) + 1);
        base - base / 10 <= wait <= base + base / 10
    {
      var backoff := WarmBackoff(b.failStreak + 1, factor);
      wait := backoff;
      BackOff(b, auth, backoff, now, t);
    }

    method BackOff(b: RouteBucket, auth: bool, backoff: int, now: int, ghost t: Task)
      requires Valid() && t.b == b && Indexed(model) && Enabled(model, DialFailed(t, auth, backoff, now))
      modifies this`run, this`model, b`flying, b`authBroken, b`authBrokenEpoch, b`failStreak, b`backoffUntil
      ensures Valid() && run == old(run) + [DialFailed(t, auth, backoff, now)]
    {
      TaskKnown(origin, run, model, t);
      Fail(b, auth, backoff, now, t, model);
      Record(DialFailed(t, auth, backoff, now));
    }

    method Fail(b: RouteBucket, auth: bool, backoff: int, now: int, ghost t: Task, ghost s: State)
      requires In(s) && Indexed(s) && Enabled(s, DialFailed(t, auth, backoff, now)) && t.b == b
      requires t.p == b.p && b.p in s.epochs
      modifies b`flying, b`authBroken, b`authBrokenEpoch, b`failStreak, b`backoffUntil
      ensures In(Apply(s, DialFailed(t, auth, backoff, now)))
    {
      FailIs(s, t, auth, backoff, now);
      assert b.View() == s.cells[b];
      b.flying := b.flying - 1;
      if auth {
        b.authBroken, b.authBrokenEpoch := true, b.p.rotationEpoch;
      } else {
        b.failStreak, b.backoffUntil := b.failStreak + 1, Some(now + backoff);
      }
    }

    // Hands out the oldest parked connection of the route, or none at once.
    method Borrow(p: Proxy, cfg: Config) returns (hc: Option<HalfConn>)
      requires Valid()
      modifies this`run, this`model, this`closed, buckets.Values`ready
      ensures Valid() && run == old(run) + [Event.Borrow(p, cfg)]
      ensures Indexed(old(model)) && hc == Borrowed(old(model), p, cfg)
    {
      RunIndexed(origin, run, model);
      hc := None;
      if cfg.enabled && p in buckets && buckets[p].ready != [] {
        var b := buckets[p];
        assert b.View() == model.cells[b];
        OldestParked(origin, run, model, b);
        hc := Pop(b, model);
      }
      Record(Event.Borrow(p, cfg));
    }

    // The oldest parked connection leaves the bucket: handed out when it is of
    // the route's epoch, closed otherwise.
    method Pop(b: RouteBucket, ghost s: State) returns (hc: Option<HalfConn>)
      requires In(s) && b in s.cells && b.p in s.epochs && b.ready != [] && b.ready[0].hc in s.place
      requires s.place[b.ready[0].hc] == Parked(b)
      modifies this`closed, b`ready
      ensures s.cells[b].ready[0].epoch == s.epochs[b.p] ==>
        hc == Some(s.cells[b].ready[0].hc) && In(PoppedState(s, b, Lent))
      ensures s.cells[b].ready[0].epoch != s.epochs[b.p] ==> hc == None && In(PoppedState(s, b, Closed))
    {
      assert b.View() == s.cells[b];
      PoppedClosed(s, b);
      var wc := b.ready[0];
      b.ready := b.ready[1..];
      if wc.epoch != b.p.rotationEpoch {
        closed := closed + {wc.hc};
        return None;
      }
      return Some(wc.hc);
    }

    // Closes every parked connection of the route, its siblings having failed.
    method DiscardRoute(p: Proxy)
      requires Valid()
      modifies this`run, this`model, this`closed, buckets.Values`ready
      ensures Valid() && run == old(run) + [Discard(p)]
      ensures p in buckets ==> buckets[p].ready == []
    {
      RunReady(origin, run, model);
      if p in buckets {
        Empty({buckets[p]}, model);
        assert buckets[p].View() == Emptied(model, {buckets[p]}).cells[buckets[p]];
      }
      Record(Discard(p));
    }

    method DropPending(ghost s: State)
      requires In(s)
      modifies buckets.Values`pending
      ensures In(s.(cells := Cancelled(s.cells, s.index.Values)))
    {
      forall b | b in buckets.Values {
        b.pending := 0;
      }
    }

    // Tears the pool down: parked connections closed, scheduled dials dropped.
    method Stop()
      requires Valid()
      modifies this`run, this`model, this`closed, this`stopped, buckets.Values`ready, buckets.Values`pending
      ensures Valid() && run == old(run) + [Event.Stop] && stopped
    {
      RunReady(origin, run, model);
      TearDown(model);
      Record(Event.Stop);
    }

    method TearDown(ghost s: State)
      requires In(s) && Ready(s)
      modifies this`closed, this`stopped, buckets.Values`ready, buckets.Values`pending
      ensures In(Apply(s, Event.Stop)) && stopped
    {
      Empty(buckets.Values, s);
      DropPending(Emptied(s, s.index.Values));
      StopIs(s);
      stopped := true;
    }
  }
}
