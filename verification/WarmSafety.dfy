// What every run of the warm pool keeps, under any interleaving of sweeps,
// claims, late dial completions, borrows, discards, rotations and stop.
module WarmSafety {
  import opened Routes
  import opened WarmBuckets

  // ---- The invariant

  ghost function TasksOn(tasks: set<Task>, b: RouteBucket): set<Task> {
    set t | t in tasks && t.b == b
  }

  /** Claims in the air name a bucket of their route and a past epoch of it. */
  ghost predicate TasksOK(s: State) {
    forall t :: t in s.tasks ==>
      t.b in s.cells && t.b.p == t.p && t.p in s.epochs && t.epoch <= s.epochs[t.p] && t.id < s.claims
  }

  /** Reservations are never negative, and each bucket, dropped ones included,
      counts exactly its own dials in the air. */
  ghost predicate ReservationsOK(s: State) {
    forall b :: b in s.cells ==> 0 <= s.cells[b].pending && s.cells[b].flying == |TasksOn(s.tasks, b)|
  }

  ghost predicate Distinct(ready: seq<WarmConn>) {
    forall i, j :: 0 <= i < j < |ready| ==> ready[i].hc != ready[j].hc
  }

  /** A parked connection is recorded there, with the stamp of the dial that
      made it, which is no later than the route's epoch. */
  ghost predicate ParkedOK(s: State, b: RouteBucket, wc: WarmConn) {
    wc.hc in s.place && s.place[wc.hc] == Parked(b) &&
    wc.hc in s.dialled && s.dialled[wc.hc].b == b && s.dialled[wc.hc].p == b.p && s.dialled[wc.hc].epoch == wc.epoch &&
    b.p in s.epochs && wc.epoch <= s.epochs[b.p]
  }

  ghost predicate BucketOK(s: State, b: RouteBucket, ready: seq<WarmConn>) {
    b.p in s.epochs && Distinct(ready) && forall i :: 0 <= i < |ready| ==> ParkedOK(s, b, ready[i])
  }

  ghost predicate BucketsOK(s: State) {
    forall b :: b in s.cells ==> BucketOK(s, b, s.cells[b].ready)
  }

  /** What the ledger says is where the connection is. */
  ghost predicate LedgerOK(s: State) {
    s.dialled.Keys == s.place.Keys &&
    (forall hc :: hc in s.place ==>
      (s.place[hc].InHands? ==> s.place[hc].t in s.tasks && s.dialled[hc] == s.place[hc].t) &&
      (s.place[hc].Parked? ==> s.place[hc].b in s.cells && Holds(s.cells[s.place[hc].b].ready, hc))) &&
    (forall hc, hc' :: hc in s.place && hc' in s.place && s.place[hc].InHands? && s.place[hc] == s.place[hc'] ==>
      hc == hc')
  }

  /** Dropped buckets park nothing, and after stop no bucket does. */
  ghost predicate VacantOK(s: State) {
    forall b :: b in s.cells && (s.stopped || !s.Mapped(b)) ==> s.cells[b].ready == []
  }

  ghost predicate Inv(s: State) {
    Indexed(s) && TasksOK(s) && ReservationsOK(s) && BucketsOK(s) && LedgerOK(s) && VacantOK(s)
  }

  // ---- Thinning: parked connections dropped, and closed for it

  ghost predicate Thins(kept: seq<WarmConn>, ready: seq<WarmConn>) {
    (forall i :: 0 <= i < |kept| ==> kept[i] in ready) && (Distinct(ready) ==> Distinct(kept))
  }

  /** Same dials and ledger keys; every bucket keeps part of what it parked, and
      exactly the connections dropped are closed. */
  ghost predicate Thinned(s: State, s': State) {
    s' == s.(index := s'.index, cells := s'.cells, place := s'.place, stopped := s'.stopped) &&
    s'.cells.Keys == s.cells.Keys && s'.place.Keys == s.place.Keys &&
    (forall b :: b in s.cells ==>
      0 <= s'.cells[b].pending && s'.cells[b].flying == s.cells[b].flying &&
        Thins(s'.cells[b].ready, s.cells[b].ready)) &&
    (forall hc :: hc in s.place ==> s'.place[hc] == AfterThinning(s, s', s.place[hc], hc))
  }

  ghost function AfterThinning(s: State, s': State, was: Place, hc: HalfConn): Place {
    if was.Parked? && was.b in s'.cells && !Holds(s'.cells[was.b].ready, hc) then Closed else was
  }

  lemma ThinningKeepsBuckets(s: State, s': State)
    requires BucketsOK(s) && Thinned(s, s')
    ensures BucketsOK(s')
  {
    forall b | b in s'.cells
      ensures BucketOK(s', b, s'.cells[b].ready)
    {
      assert BucketOK(s, b, s.cells[b].ready);
      forall i | 0 <= i < |s'.cells[b].ready|
        ensures ParkedOK(s', b, s'.cells[b].ready[i])
      {
        var wc := s'.cells[b].ready[i];
        var j :| 0 <= j < |s.cells[b].ready| && s.cells[b].ready[j] == wc;
        assert ParkedOK(s, b, s.cells[b].ready[j]);
        assert Holds(s'.cells[b].ready, wc.hc);
      }
    }
  }

  lemma ThinningKeeps(s: State, s': State)
    requires Inv(s) && Thinned(s, s') && Indexed(s') && VacantOK(s')
    ensures Inv(s')
  {
    ThinningKeepsBuckets(s, s');
    assert LedgerOK(s') by {
      assert forall hc :: hc in s'.place && s'.place[hc].InHands? ==> s.place[hc] == s'.place[hc];
    }
  }

  // ---- The sweep's filter

  /** A sweep's filter is order-preserving: it keeps, at increasing positions,
      exactly the connections of the current epoch that have not expired. */
  lemma {:induction false} RetainedIsFilter(ready: seq<WarmConn>, epoch: nat, now: int, ttl: int) returns (at: seq<nat>)
    ensures var kept := Retained(ready, epoch, now, ttl);
      |at| == |kept| && (forall k :: 0 <= k < |at| ==> at[k] < |ready| && kept[k] == ready[at[k]]) &&
      (forall k, l :: 0 <= k < l < |at| ==> at[k] < at[l]) &&
      (forall i :: 0 <= i < |ready| ==> (i in at <==> ready[i].epoch == epoch && now - ready[i].created <= ttl))
  {
    if ready == [] {
      at := [];
    } else {
      var n := |ready| - 1;
      at := RetainedIsFilter(ready[..n], epoch, now, ttl);
      if ready[n].epoch == epoch && now - ready[n].created <= ttl {
        var more := at + [n];
        assert more[|at|] == n;
        assert forall i :: 0 <= i < n ==> (i in more <==> i in at);
        at := more;
      }
    }
  }

  lemma SweptThins(ready: seq<WarmConn>, epoch: nat, cfg: Config, now: int)
    requires cfg.Validated()
    ensures Thins(SweptReady(ready, epoch, cfg, now), ready)
  {
    var at := RetainedIsFilter(ready, epoch, now, cfg.idleTTL);
  }

  // ---- Every step keeps the invariant

  lemma EmptiedThins(s: State, gone: set<RouteBucket>)
    requires LedgerOK(s) && ReservationsOK(s)
    ensures Thinned(s, Emptied(s, gone))
  {
    var s' := Emptied(s, gone);
    forall hc | hc in s.place
      ensures s'.place[hc] == AfterThinning(s, s', s.place[hc], hc)
    {
      if s.place[hc].Parked? {
        assert Holds(s.cells[s.place[hc].b].ready, hc);
      }
    }
  }

  lemma EmptiedKeeps(s: State, gone: set<RouteBucket>)
    requires Inv(s)
    ensures Inv(Emptied(s, gone)) && Thinned(s, Emptied(s, gone))
  {
    EmptiedThins(s, gone);
    ThinningKeeps(s, Emptied(s, gone));
  }

  /** A bucket with nothing parked may leave the map. */
  lemma UnmappedKeeps(s: State, index: map<Proxy, RouteBucket>)
    requires Inv(s) && index.Keys <= s.index.Keys
    requires forall p :: p in s.index ==>
      if p in index then index[p] == s.index[p] else s.cells[s.index[p]].ready == []
    ensures Inv(s.(index := index))
  {
    SameParked(s, s.(index := index));
  }

  lemma PrunedKeeps(s: State, live: set<Proxy>)
    requires Inv(s)
    ensures Inv(Pruned(s, live)) && Pruned(s, live).index.Keys == s.index.Keys * live
  {
    var gone := Dead(s.index, live);
    EmptiedKeeps(s, gone);
    UnmappedKeeps(Emptied(s, gone), Surviving(s.index, live));
  }

  /** Buckets were added, empty and mapped, and no other changed. */
  ghost predicate Grown(s: State, s': State) {
    s' == s.(index := s'.index, cells := s'.cells) &&
    (forall b :: b in s.cells ==> b in s'.cells && s'.cells[b] == s.cells[b] && (s'.Mapped(b) <==> s.Mapped(b))) &&
    (forall b :: b in s'.cells && b !in s.cells ==> s'.cells[b] == EMPTY && s'.Mapped(b) && b.p in s.epochs)
  }

  lemma AdoptedGrows(s: State, live: set<Proxy>, made: map<Proxy, RouteBucket>)
    requires Indexed(s) && MadeFor(s, live, made)
    ensures Grown(s, Adopted(s, made)) && Indexed(Adopted(s, made))
  {
    var s' := Adopted(s, made);
    forall b | b in s'.cells && b !in s.cells
      ensures s'.cells[b] == EMPTY && s'.Mapped(b) && b.p in s.epochs
    {
      assert b in made.Values && made[b.p] == b;
    }
  }

  lemma GrowthKeepsReservations(s: State, s': State)
    requires TasksOK(s) && ReservationsOK(s) && Grown(s, s')
    ensures TasksOK(s') && ReservationsOK(s')
  {
    forall b | b in s'.cells
      ensures 0 <= s'.cells[b].pending && s'.cells[b].flying == |TasksOn(s'.tasks, b)|
    {
      assert b !in s.cells ==> TasksOn(s.tasks, b) == {};
    }
  }

  lemma GrowthKeepsBuckets(s: State, s': State)
    requires BucketsOK(s) && LedgerOK(s) && VacantOK(s) && Grown(s, s')
    ensures BucketsOK(s') && LedgerOK(s') && VacantOK(s')
  {
    forall b | b in s'.cells
      ensures BucketOK(s', b, s'.cells[b].ready)
    {
      if b in s.cells {
        assert BucketOK(s, b, s.cells[b].ready);
        assert forall i :: 0 <= i < |s.cells[b].ready| ==> ParkedOK(s, b, s.cells[b].ready[i]);
      }
    }
  }

  lemma AdoptedKeeps(s: State, live: set<Proxy>, made: map<Proxy, RouteBucket>)
    requires Inv(s) && MadeFor(s, live, made)
    ensures Inv(Adopted(s, made))
  {
    AdoptedGrows(s, live, made);
    GrowthKeepsReservations(s, Adopted(s, made));
    GrowthKeepsBuckets(s, Adopted(s, made));
  }

  lemma MaintainedThins(s: State, on: set<RouteBucket>, cfg: Config, now: int)
    requires cfg.Validated() && ReservationsOK(s) && LedgerOK(s)
    requires forall b :: b in on ==> b in s.cells && b.p in s.epochs
    ensures Thinned(s, MaintainedOn(s, on, cfg, now))
  {
    var s' := MaintainedOn(s, on, cfg, now);
    forall b | b in s.cells
      ensures Thins(s'.cells[b].ready, s.cells[b].ready)
    {
      if b in on {
        SweptThins(s.cells[b].ready, s.epochs[b.p], cfg, now);
      }
    }
    forall hc | hc in s.place
      ensures s'.place[hc] == AfterThinning(s, s', s.place[hc], hc)
    {
      if s.place[hc].Parked? && s.place[hc].b in on {
        var b := s.place[hc].b;
        assert s'.cells[b].ready == Maintained(s.cells[b], s.epochs[b.p], cfg, now).ready;
      }
    }
  }

  lemma MaintainedKeeps(s: State, cfg: Config, now: int)
    requires Inv(s) && cfg.Validated()
    ensures Inv(MaintainedAll(s, cfg, now))
  {
    MaintainedThins(s, s.index.Values, cfg, now);
    ThinningKeeps(s, MaintainedAll(s, cfg, now));
  }

  lemma ScheduledKeeps(s: State, added: map<Proxy, int>)
    requires Inv(s) && added.Keys == s.index.Keys && forall p :: p in added ==> 0 <= added[p]
    ensures Inv(Scheduled(s, added))
  {
    var s' := Scheduled(s, added);
    forall hc | hc in s.place
      ensures s'.place[hc] == AfterThinning(s, s', s.place[hc], hc)
    {
    }
    ThinningKeeps(s, s');
  }

  /** The parts of a sweep keep the invariant one by one. */
  lemma SweepStagesKeep(s: State, ev: Event)
    requires Inv(s) && Enabled(s, ev) && ev.Sweep? && !s.stopped
    ensures Inv(Pruned(s, ev.live)) && Inv(Adopted(Pruned(s, ev.live), ev.made))
    ensures Inv(Maintenance(s, ev.live, ev.made, ev.cfg, ev.now))
  {
    PrunedKeeps(s, ev.live);
    AdoptedKeeps(Pruned(s, ev.live), ev.live, ev.made);
    MaintainedKeeps(Adopted(Pruned(s, ev.live), ev.made), ev.cfg, ev.now);
  }

  lemma SweepKeeps(s: State, ev: Event)
    requires Inv(s) && Enabled(s, ev) && ev.Sweep?
    ensures Inv(Apply(s, ev))
  {
    if !s.stopped {
      SweepStagesKeep(s, ev);
      if ev.cfg.enabled {
        ScheduledKeeps(Maintenance(s, ev.live, ev.made, ev.cfg, ev.now), ev.added);
      } else {
        var kept := Maintenance(s, ev.live, ev.made, ev.cfg, ev.now);
        EmptiedKeeps(kept, kept.index.Values);
      }
    }
  }

  /** One claim added to, or removed from, those on one bucket. */
  lemma TasksOnChange(tasks: set<Task>, t: Task)
    ensures forall b :: b != t.b ==> TasksOn(tasks + {t}, b) == TasksOn(tasks, b) == TasksOn(tasks - {t}, b)
    ensures t !in tasks ==> |TasksOn(tasks + {t}, t.b)| == |TasksOn(tasks, t.b)| + 1
    ensures t in tasks ==> |TasksOn(tasks - {t}, t.b)| == |TasksOn(tasks, t.b)| - 1
  {
    assert TasksOn(tasks + {t}, t.b) == TasksOn(tasks, t.b) + {t};
    assert TasksOn(tasks - {t}, t.b) == TasksOn(tasks, t.b) - {t};
  }

  lemma ClaimKeeps(s: State, ev: Event)
    requires Inv(s) && Enabled(s, ev) && ev.Claim?
    ensures Inv(Apply(s, ev))
  {
    TasksOnChange(s.tasks, ev.t);
    SameParked(s, Apply(s, ev));
  }

  /** Steps that park, lend and close nothing keep the parked connections right. */
  lemma SameParked(s: State, s': State)
    requires BucketsOK(s) && s'.cells.Keys == s.cells.Keys && s'.place == s.place && s'.dialled == s.dialled
    requires s.epochs.Keys <= s'.epochs.Keys && forall p :: p in s.epochs ==> s.epochs[p] <= s'.epochs[p]
    requires forall b :: b in s.cells ==> s'.cells[b].ready == s.cells[b].ready
    ensures BucketsOK(s')
  {
    forall b | b in s'.cells
      ensures BucketOK(s', b, s'.cells[b].ready)
    {
      assert BucketOK(s, b, s.cells[b].ready);
      forall i | 0 <= i < |s.cells[b].ready|
        ensures ParkedOK(s', b, s.cells[b].ready[i])
      {
        assert ParkedOK(s, b, s.cells[b].ready[i]);
      }
    }
  }

  lemma EpochKeeps(s: State, ev: Event)
    requires Inv(s) && Enabled(s, ev) && (ev.Seen? || ev.Rotate?)
    ensures Inv(Apply(s, ev))
  {
    SameParked(s, Apply(s, ev));
  }

  lemma ReturnedKeeps(s: State, ev: Event)
    requires Inv(s) && Enabled(s, ev) && ev.Returned?
    ensures Inv(Apply(s, ev))
  {
    forall b | b in s.cells
      ensures BucketOK(Apply(s, ev), b, s.cells[b].ready)
    {
      assert BucketOK(s, b, s.cells[b].ready);
      assert forall i :: 0 <= i < |s.cells[b].ready| ==> ParkedOK(s, b, s.cells[b].ready[i]);
    }
  }

  // A finished dial, in two parts: its connection leaves the worker's hands,
  // then its reservation is returned.

  lemma HandedOverKeeps(s: State, t: Task, hc: HalfConn)
    requires Inv(s) && hc in s.place && s.place[hc] == InHands(t)
    ensures var s' := s.(place := s.place[hc := Closed]); Inv(s') && !Holding(s', t)
  {
    var s' := s.(place := s.place[hc := Closed]);
    forall b | b in s.cells
      ensures BucketOK(s', b, s.cells[b].ready)
    {
      assert BucketOK(s, b, s.cells[b].ready);
      assert forall i :: 0 <= i < |s.cells[b].ready| ==> ParkedOK(s, b, s.cells[b].ready[i]);
    }
  }

  /** The state in which the connection of `t` has been parked. */
  ghost function ParkedState(s: State, t: Task, hc: HalfConn, now: int): State
    requires t.b in s.cells
  {
    var b := s.cells[t.b];
    s.(cells := s.cells[t.b := b.(ready := b.ready + [WarmConn(hc, t.epoch, now)])],
       place := s.place[hc := Parked(t.b)])
  }

  lemma ParkingKeepsBuckets(s: State, t: Task, hc: HalfConn, now: int)
    requires Inv(s) && t in s.tasks && hc in s.place && s.place[hc] == InHands(t)
    ensures BucketsOK(ParkedState(s, t, hc, now))
  {
    var s' := ParkedState(s, t, hc, now);
    forall c | c in s.cells
      ensures BucketOK(s', c, s'.cells[c].ready)
    {
      MovedElsewhere(s, s', c, s.cells[c].ready, hc);
    }
  }

  /** The parked connections of a bucket do not notice another one moving. */
  lemma MovedElsewhere(s: State, s': State, c: RouteBucket, ready: seq<WarmConn>, hc: HalfConn)
    requires BucketOK(s, c, ready) && hc in s.place && hc in s'.place
    requires s'.place == s.place[hc := s'.place[hc]] && s'.dialled == s.dialled && s'.epochs == s.epochs
    requires s.place[hc] != Parked(c) || forall i :: 0 <= i < |ready| ==> ready[i].hc != hc
    ensures BucketOK(s', c, ready) && forall i :: 0 <= i < |ready| ==> ready[i].hc != hc
  {
    forall i | 0 <= i < |ready|
      ensures ParkedOK(s', c, ready[i]) && ready[i].hc != hc
    {
      assert ParkedOK(s, c, ready[i]);
    }
  }

  lemma ParkingKeepsLedger(s: State, t: Task, hc: HalfConn, now: int)
    requires LedgerOK(s) && t in s.tasks && t.b in s.cells && hc in s.place && s.place[hc] == InHands(t)
    ensures LedgerOK(ParkedState(s, t, hc, now)) && !Holding(ParkedState(s, t, hc, now), t)
  {
    var b, s' := s.cells[t.b], ParkedState(s, t, hc, now);
    assert s'.cells[t.b].ready[|b.ready|].hc == hc;
    forall other | other in s'.place && s'.place[other].Parked?
      ensures s'.place[other].b in s'.cells && Holds(s'.cells[s'.place[other].b].ready, other)
    {
      if other != hc {
        var at := s.place[other].b;
        var i :| 0 <= i < |s.cells[at].ready| && s.cells[at].ready[i].hc == other;
        assert s'.cells[at].ready[i].hc == other;
      }
    }
  }

  lemma ParkingKeeps(s: State, t: Task, hc: HalfConn, now: int)
    requires Inv(s) && t in s.tasks && hc in s.place && s.place[hc] == InHands(t)
    requires !s.stopped && s.Mapped(t.b)
    ensures Inv(ParkedState(s, t, hc, now)) && !Holding(ParkedState(s, t, hc, now), t)
  {
    ParkingKeepsBuckets(s, t, hc, now);
    ParkingKeepsLedger(s, t, hc, now);
  }

  /** The bucket after a dial of its route is no longer in the air. */
  ghost predicate Landed(b: Bucket, b': Bucket) {
    b'.ready == b.ready && b'.pending == b.pending && b'.flying == b.flying - 1
  }

  lemma LandingKeeps(s: State, t: Task, landed: Bucket)
    requires Inv(s) && t in s.tasks && !Holding(s, t) && Landed(s.cells[t.b], landed)
    ensures Inv(s.(cells := s.cells[t.b := landed], tasks := s.tasks - {t}))
  {
    var s' := s.(cells := s.cells[t.b := landed], tasks := s.tasks - {t});
    LandingKeepsReservations(s, t, landed);
    SameParked(s, s');
  }

  lemma LandingKeepsReservations(s: State, t: Task, landed: Bucket)
    requires ReservationsOK(s) && t in s.tasks && t.b in s.cells && Landed(s.cells[t.b], landed)
    ensures ReservationsOK(s.(cells := s.cells[t.b := landed], tasks := s.tasks - {t}))
  {
    TasksOnChange(s.tasks, t);
  }

  lemma DialFailedKeeps(s: State, ev: Event)
    requires Inv(s) && Enabled(s, ev) && ev.DialFailed?
    ensures Inv(Apply(s, ev))
  {
    LandingKeeps(s, ev.t, Apply(s, ev).cells[ev.t.b]);
  }

  lemma AcceptedKeeps(s: State, ev: Event)
    requires Inv(s) && Enabled(s, ev) && ev.Completed? && Parkable(s, ev.t, ev.cfg)
    ensures Inv(Apply(s, ev))
  {
    var t, parked := ev.t, ParkedState(s, ev.t, ev.hc, ev.now);
    ParkingKeeps(s, t, ev.hc, ev.now);
    LandingKeeps(parked, t, Apply(s, ev).cells[t.b]);
    assert Apply(s, ev).cells == parked.cells[t.b := Apply(s, ev).cells[t.b]];
  }

  lemma CompletedKeeps(s: State, ev: Event)
    requires Inv(s) && Enabled(s, ev) && ev.Completed?
    ensures Inv(Apply(s, ev))
  {
    if Parkable(s, ev.t, ev.cfg) {
      AcceptedKeeps(s, ev);
    } else {
      HandedOverKeeps(s, ev.t, ev.hc);
      LandingKeeps(s.(place := s.place[ev.hc := Closed]), ev.t, Apply(s, ev).cells[ev.t.b]);
    }
  }

  lemma BorrowKeeps(s: State, ev: Event)
    requires Inv(s) && Enabled(s, ev) && ev.Borrow?
    ensures Inv(Apply(s, ev))
  {
    if ev.cfg.enabled && ev.p in s.index && s.cells[s.index[ev.p]].ready != [] {
      PopKeeps(s, s.index[ev.p], if Borrowed(s, ev.p, ev.cfg).Some? then Lent else Closed);
    }
  }

  /** The state in which the oldest parked connection has left the bucket. */
  ghost function PoppedState(s: State, b: RouteBucket, to: Place): State
    requires b in s.cells && s.cells[b].ready != []
  {
    s.(cells := s.cells[b := s.cells[b].(ready := s.cells[b].ready[1..])],
       place := s.place[s.cells[b].ready[0].hc := to])
  }

  lemma PopKeepsBuckets(s: State, b: RouteBucket, to: Place)
    requires Inv(s) && b in s.cells && s.cells[b].ready != []
    ensures BucketsOK(PoppedState(s, b, to))
  {
    var ready, s' := s.cells[b].ready, PoppedState(s, b, to);
    assert BucketOK(s, b, ready) && ParkedOK(s, b, ready[0]);
    forall c | c in s.cells
      ensures BucketOK(s', c, s'.cells[c].ready)
    {
      assert BucketOK(s, c, s'.cells[c].ready);
      MovedElsewhere(s, s', c, s'.cells[c].ready, ready[0].hc);
    }
  }

  lemma PopKeepsLedger(s: State, b: RouteBucket, to: Place)
    requires Inv(s) && b in s.cells && s.cells[b].ready != [] && (to == Lent || to == Closed)
    ensures LedgerOK(PoppedState(s, b, to))
  {
    var ready, s' := s.cells[b].ready, PoppedState(s, b, to);
    assert BucketOK(s, b, ready) && ParkedOK(s, b, ready[0]);
    forall other | other in s'.place && s'.place[other].Parked?
      ensures s'.place[other].b in s'.cells && Holds(s'.cells[s'.place[other].b].ready, other)
    {
      var at := s.place[other].b;
      var i :| 0 <= i < |s.cells[at].ready| && s.cells[at].ready[i].hc == other;
      assert at == b ==> i > 0 && ready[1..][i - 1].hc == other;
    }
  }

  lemma PopKeeps(s: State, b: RouteBucket, to: Place)
    requires Inv(s) && b in s.cells && s.cells[b].ready != [] && (to == Lent || to == Closed)
    ensures Inv(PoppedState(s, b, to))
  {
    PopKeepsBuckets(s, b, to);
    PopKeepsLedger(s, b, to);
  }

  /** Scheduled dials may be dropped, and the pool stopped once it is empty. */
  lemma StoppedKeeps(s: State, s': State)
    requires Inv(s) && s' == s.(cells := s'.cells, stopped := true) && s'.cells.Keys == s.cells.Keys
    requires forall b :: b in s.cells ==>
      s.cells[b].ready == [] && 0 <= s'.cells[b].pending && s'.cells[b] == s.cells[b].(pending := s'.cells[b].pending)
    ensures Inv(s')
  {
    SameParked(s, s');
  }

  lemma StopKeeps(s: State)
    requires Inv(s)
    ensures Inv(Apply(s, Stop))
  {
    EmptiedKeeps(s, s.index.Values);
    var drained := Emptied(s, s.index.Values);
    assert forall b :: b in s.cells ==> s.Mapped(b) == (b in s.index.Values);
    StoppedKeeps(drained, Apply(s, Stop));
  }

  lemma StepKeeps(s: State, ev: Event)
    requires Inv(s) && Enabled(s, ev)
    ensures Inv(Apply(s, ev))
  {
    match ev
    case Seen(_) => EpochKeeps(s, ev);
    case Rotate(_) => EpochKeeps(s, ev);
    case Sweep(_, _, _, _, _, _) => SweepKeeps(s, ev);
    case Claim(_, _, _, _) => ClaimKeeps(s, ev);
    case Returned(_, _) => ReturnedKeeps(s, ev);
    case Completed(_, _, _, _) => CompletedKeeps(s, ev);
    case DialFailed(_, _, _, _) => DialFailedKeeps(s, ev);
    case Borrow(_, _) => BorrowKeeps(s, ev);
    case Discard(p) => if p in s.index { EmptiedKeeps(s, {s.index[p]}); }
    case Stop => StopKeeps(s);
  }
}
