// Where the two runs meet: a rotation that begins is one step of the shared
// route state and one step of the warm pool, by the same call.
module RotationStart {
  import opened Routes
  import opened RouteRuns
  import opened Generations
  import Procedures
  import WarmBuckets
  import WarmPools
  import WarmRuns

  ghost function WithEpoch(s: WarmBuckets.State, p: Proxy): WarmBuckets.State
    requires p in s.epochs
  {
    s.(epochs := s.epochs[p := s.epochs[p] + 1])
  }

  method Begin(store: Store, warm: WarmPools.WarmPool, p: Proxy, ghost agent: Agent)
    requires store.Valid() && warm.Valid() && p.origin == Manual
    requires p in store.model.routes && p in warm.model.epochs
    modifies p`rotating, p`rotationEpoch, p`rotationState, p`nextRetryIn
    modifies store`model, store`run, warm`run, warm`model
    ensures store.Valid() && store.Log(agent) == old(store.Log(agent)) + [Local(p, Change.Begin)]
    ensures warm.Valid() && warm.run == old(warm.run) + [WarmBuckets.Rotate(p)]
    ensures p.rotating && p.rotationEpoch == old(p.rotationEpoch) + 1
  {
    BeginInStore(store, warm, p, agent);
    RecordBeside(store, warm, p);
  }

  /** The store does not notice the warm pool's record. */
  ghost method RecordBeside(store: Store, warm: WarmPools.WarmPool, p: Proxy)
    requires store.Valid() && WarmRuns.Fresh(warm.origin) && WarmRuns.Reaches(warm.origin, warm.run, warm.model)
    requires p in warm.model.epochs && warm.In(WithEpoch(warm.model, p))
    modifies warm`run, warm`model
    ensures store.Valid() && warm.Valid() && warm.run == old(warm.run) + [WarmBuckets.Rotate(p)]
  {
    RecordInWarmPool(warm, p);
  }

  method BeginStep(store: Store, p: Proxy, ghost agent: Agent)
    requires store.Valid() && p in store.model.routes && p.origin == Manual
    modifies p`rotating, p`rotationEpoch, p`rotationState, p`nextRetryIn, store`model, store`run
    ensures store.Valid() && store.Log(agent) == old(store.Log(agent)) + [Local(p, Change.Begin)]
    ensures p.rotating && p.rotationEpoch == old(p.rotationEpoch) + 1
  {
    Procedures.Begin(store, p, agent);
  }

  // The procedure's own step; the warm pool sees the route's new epoch.
  method BeginInStore(store: Store, ghost warm: WarmPools.WarmPool, p: Proxy, ghost agent: Agent)
    requires store.Valid() && warm.In(warm.model) && p.origin == Manual
    requires p in store.model.routes && p in warm.model.epochs
    modifies p`rotating, p`rotationEpoch, p`rotationState, p`nextRetryIn, store`model, store`run
    ensures store.Valid() && store.Log(agent) == old(store.Log(agent)) + [Local(p, Change.Begin)]
    ensures warm.In(WithEpoch(warm.model, p))
    ensures p.rotating && p.rotationEpoch == old(p.rotationEpoch) + 1
  {
    BeginStep(store, p, agent);
    forall b | b in warm.model.cells
      ensures b.View() == warm.model.cells[b]
    {
    }
  }

  ghost method RecordInWarmPool(warm: WarmPools.WarmPool, p: Proxy)
    requires WarmRuns.Fresh(warm.origin) && WarmRuns.Reaches(warm.origin, warm.run, warm.model)
    requires p in warm.model.epochs && warm.In(WithEpoch(warm.model, p))
    modifies warm`run, warm`model
    ensures warm.Valid() && warm.run == old(warm.run) + [WarmBuckets.Rotate(p)]
  {
    WarmPools.RunIndexed(warm.origin, warm.run, warm.model);
    warm.Record(WarmBuckets.Rotate(p));
  }
}
