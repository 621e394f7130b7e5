// The check at boot: the address each manual route starts with, learnt by two
// probes before any rotation, with everything else running meanwhile.
module BootProbes {
  import opened Common
  import opened Routes
  import opened RoutePool
  import opened RouteRuns
  import opened RouteSafety
  import opened Generations
  import Scheduling
  import Procedures

  // Everything else in the process runs for a while. Callers know only the
  // contract: generations and routes are never lost, by `GenerationsFrozen`,
  // and nobody acts in the name of this check.
  method Others(store: Store)
    requires store.Valid()
    modifies store, store.model.routes.Keys
    ensures store.Valid() && store.Log(BootCheck) == old(store.Log(BootCheck))
    ensures old(store.model).gens <= store.model.gens && old(store.model).routes.Keys <= store.model.routes.Keys
    ensures forall q :: q in store.model.routes ==> q in old(store.model).routes || fresh(q)
  {
    GenerationsFrozen(store.model, [], store.model);
  }

  // An address observed before any rotation is recorded, unless one is known.
  method TakeBaseline(store: Store, p: Proxy, ip: Address)
    requires store.Valid() && p in store.model.routes
    modifies p`lastIP, p`verifiedIPs, store`model, store`run
    ensures store.Valid() && store.Log(BootCheck) == old(store.Log(BootCheck)) + [Baseline(p, ip)]
    ensures OnlyRoute(old(store.model), store.model, p)
    ensures var r := old(store.model).routes[p]; store.model.routes[p] == r.(egress := r.egress.Baselined(ip))
  {
    p.SetBaselineIP(ip);
    store.Record(Baseline(p, ip), p, BootCheck);
  }

  // Two probes of one route; the last answer counts, none when the first fails.
  method Observe(store: Store) returns (ip: Option<Address>)
    requires store.Valid()
    modifies store, store.model.routes.Keys
    ensures store.Valid() && store.Log(BootCheck) == old(store.Log(BootCheck))
    ensures old(store.model).gens <= store.model.gens && old(store.model).routes.Keys <= store.model.routes.Keys
    ensures forall q :: q in store.model.routes ==> q in old(store.model).routes || fresh(q)
    ensures ip.Some? ==> ip.value.Literal?
  {
    Others(store);
    ip := Procedures.ProbeIP();
    if ip.None? {
      return;
    }
    var second := Procedures.ProbeIP();
    if second.Some? {
      ip := second;
    }
  }

  /** What the check records: baselines at literal addresses, for different
      routes of the list. */
  ghost predicate Baselines(trace: seq<Event>, entries: seq<Proxy>) {
    (forall i :: 0 <= i < |trace| ==> trace[i].Baseline? && trace[i].p in entries && trace[i].ip.Literal?) &&
    (forall i, j :: 0 <= i < j < |trace| ==> trace[i].p != trace[j].p)
  }

  /** Nothing, or one baseline of a listed route. */
  ghost predicate OneBaseline(trace: seq<Event>, entries: seq<Proxy>, id: Scheduling.RouteId) {
    trace == [] || (|trace| == 1 && trace[0].Baseline? && trace[0].p in entries && trace[0].ip.Literal? &&
                    Scheduling.IdOf(trace[0].p) == id)
  }

  // One route of the configuration: skipped when it is no longer live.
  method CheckRoute(store: Store, pool: Pool, ghost gen: nat, id: Scheduling.RouteId) returns (ghost trace: seq<Event>)
    requires store.Valid() && gen < |store.model.gens| && store.model.gens[gen].entries == pool.entries
    modifies store, store.model.routes.Keys
    ensures store.Valid() && store.Log(BootCheck) == old(store.Log(BootCheck)) + trace
    ensures old(store.model).gens <= store.model.gens
    ensures forall q :: q in store.model.routes ==> q in old(store.model).routes || fresh(q)
    ensures OneBaseline(trace, pool.entries, id)
  {
    trace := [];
    var p := FindLive(store, pool, gen, id);
    if p != null {
      trace := ProbeRoute(store, p);
    }
  }

  method FindLive(store: Store, pool: Pool, ghost gen: nat, id: Scheduling.RouteId) returns (p: Proxy?)
    requires store.Valid() && gen < |store.model.gens| && store.model.gens[gen].entries == pool.entries
    ensures p != null ==> p in pool.entries && p in store.model.routes && p in store.live.entries
    ensures p != null ==> Scheduling.IdOf(p) == id
  {
    p := pool.Lookup(id.key, id.kind);
    if p != null {
      var live := store.live.Contains(p);
      assert store.model.gens[gen] in store.model.gens;
      if !live {
        return null;
      }
    }
  }

  method ProbeRoute(store: Store, p: Proxy) returns (ghost trace: seq<Event>)
    requires store.Valid() && p in store.model.routes
    modifies store, store.model.routes.Keys
    ensures store.Valid() && store.Log(BootCheck) == old(store.Log(BootCheck)) + trace
    ensures old(store.model).gens <= store.model.gens
    ensures forall q :: q in store.model.routes ==> q in old(store.model).routes || fresh(q)
    ensures trace == [] || (|trace| == 1 && trace[0].Baseline? && trace[0].p == p && trace[0].ip.Literal?)
  {
    var ip := Observe(store);
    if ip.None? {
      return [];
    }
    TakeBaseline(store, p, ip.value);
    trace := [Baseline(p, ip.value)];
  }

  // The whole check, before the engine's first evaluation. It may stop early.
  method BootPrecheck(store: Store, pool: Pool, ghost gen: nat, ids: seq<Scheduling.RouteId>)
      returns (ghost trace: seq<Event>)
    requires store.Valid() && gen < |store.model.gens| && store.model.gens[gen].entries == pool.entries
    requires forall i, j :: 0 <= i < j < |ids| ==> ids[i] != ids[j]
    modifies store, store.model.routes.Keys
    ensures store.Valid() && store.Log(BootCheck) == old(store.Log(BootCheck)) + trace
    ensures Baselines(trace, pool.entries) && forall ev :: ev in trace ==> Scheduling.IdOf(ev.p) in ids
  {
    trace := [];
    for i := 0 to |ids|
      invariant store.Valid() && gen < |store.model.gens| && store.model.gens[gen].entries == pool.entries
      invariant store.Log(BootCheck) == old(store.Log(BootCheck)) + trace
      invariant forall q :: q in store.model.routes ==> q in old(store.model).routes || fresh(q)
      invariant Baselines(trace, pool.entries) && forall ev :: ev in trace ==> Scheduling.IdOf(ev.p) in ids[..i]
    {
      var stop: bool := *;
      if stop {
        assert forall ev :: ev in trace ==> Scheduling.IdOf(ev.p) in ids;
        return;
      }
      ghost var more := CheckRoute(store, pool, gen, ids[i]);
      BaselinesGrow(trace, more, pool.entries, ids, i);
      Regroup(old(store.Log(BootCheck)), trace, more);
      trace := trace + more;
    }
    assert ids[..|ids|] == ids;
  }

  lemma BaselinesGrow(trace: seq<Event>, more: seq<Event>, entries: seq<Proxy>, ids: seq<Scheduling.RouteId>, i: nat)
    requires i < |ids| && forall j, k :: 0 <= j < k < |ids| ==> ids[j] != ids[k]
    requires Baselines(trace, entries) && (forall ev :: ev in trace ==> Scheduling.IdOf(ev.p) in ids[..i])
    requires OneBaseline(more, entries, ids[i])
    ensures Baselines(trace + more, entries)
    ensures forall ev :: ev in trace + more ==> Scheduling.IdOf(ev.p) in ids[..i + 1]
  {
    forall j | 0 <= j < |trace|
      ensures more != [] ==> trace[j].p != more[0].p
    {
      assert trace[j] in trace;
    }
  }

  lemma Regroup(a: seq<Event>, b: seq<Event>, c: seq<Event>)
    ensures a + b + c == a + (b + c)
  {
  }
}
