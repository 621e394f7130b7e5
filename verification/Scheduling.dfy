// The rotation scheduler: which due routes may start a procedure under the
// concurrency cap, and how a procedure's slot is released.
module Scheduling {
  import opened Common
  import opened Routes
  import opened RoutePool
  import opened RouteRuns
  import opened Generations

  // ---- The concurrency cap

  datatype Concurrency = OneAtATime | Fixed(count: int) | Percent(share: int)

  function ResolveMaxConcurrent(setting: Concurrency, n: int): (limit: int)
    ensures n <= 0 ==> limit == 0
    ensures n > 0 ==> 1 <= limit <= n
  {
    if n <= 0 then 0 else
      var asked := match setting
        case OneAtATime => 1
        case Fixed(count) => count
        case Percent(share) => (n * share + 99) / 100;
      Min(Max(asked, 1), n)
  }

  /** A fixed cap passes through up to the number of routes; a percentage is
      the least number of routes that makes up that share. */
  lemma CapMeaning(setting: Concurrency, n: int)
    requires n > 0
    ensures setting.Fixed? && 1 <= setting.count ==> ResolveMaxConcurrent(setting, n) == Min(setting.count, n)
    ensures setting.Percent? && 1 <= setting.share <= 100 ==>
      var limit := ResolveMaxConcurrent(setting, n);
      limit * 100 >= n * setting.share && (limit - 1) * 100 < n * setting.share
  {
    if setting.Percent? && 1 <= setting.share <= 100 {
      ShareRange(n, setting.share);
      CeilingOf(n * setting.share, n);
    }
  }

  lemma ShareRange(n: int, share: int)
    requires n > 0 && 1 <= share <= 100
    ensures n <= n * share <= n * 100
  {
    assert 0 <= n * (share - 1) && 0 <= n * (100 - share);
  }

  lemma CeilingOf(x: int, n: int)
    requires 0 < n <= x <= n * 100
    ensures var limit := (x + 99) / 100; 1 <= limit <= n && limit * 100 >= x && (limit - 1) * 100 < x
  {
  }

  // ---- Generations over time

  /** The generations a route is in are consecutive. */
  ghost predicate Unbroken(gens: seq<Generation>) {
    forall i, j, k, p :: 0 <= i <= j <= k < |gens| && p in gens[i].entries && p in gens[k].entries ==>
      p in gens[j].entries
  }

  lemma {:induction false} StaysUnbroken(w: World, events: seq<Event>, w': World)
    requires w.Valid() && Reaches(w, events, w') && Unbroken(w.gens)
    ensures w'.Valid() && Unbroken(w'.gens)
    decreases |events|
  {
    if events != [] {
      UnbrokenStep(w, events[0]);
      StaysUnbroken(Apply(w, events[0]), events[1..], w');
    }
  }

  lemma UnbrokenStep(w: World, ev: Event)
    requires w.Valid() && Enabled(w, ev) && Unbroken(w.gens)
    ensures Unbroken(Apply(w, ev).gens)
  {
    if ev.Published? {
      forall i, p | 0 <= i < |w.gens| && p in w.gens[i].entries && p in ev.next.entries
        ensures p in w.Live().entries
      {
        assert w.gens[i] in w.gens && p in w.routes;
      }
      UnbrokenAppend(w.gens, ev.next);
    }
  }

  lemma UnbrokenAppend(gens: seq<Generation>, next: Generation)
    requires Unbroken(gens) && gens != []
    requires forall i, p :: 0 <= i < |gens| && p in gens[i].entries && p in next.entries ==>
      p in gens[|gens| - 1].entries
    ensures Unbroken(gens + [next])
  {
  }

  lemma BootUnbroken(w: World)
    requires Boot(w)
    ensures Unbroken(w.gens)
  {
  }

  /** Whatever has been done to a store since its first generation. */
  lemma StoreUnbroken(store: Store)
    requires store.Valid() && Boot(store.origin)
    ensures Unbroken(store.model.gens)
  {
    store.History();
    BootUnbroken(store.origin);
    StaysUnbroken(store.origin, Events(store.run), store.model);
  }

  // ---- Shared state

  // The route leaves its procedure without an outcome, wherever it stood.
  method AbandonRoute(store: Store, p: Proxy, ghost agent: Agent)
    requires store.Valid() && p in store.model.routes
    modifies p`rotating, p`rotationState, p`nextRetryIn, store`model, store`run
    ensures store.Valid() && store.live == old(store.live)
    ensures store.Log(agent) == old(store.Log(agent)) + [Local(p, Abandon)]
    ensures OnlyRoute(old(store.model), store.model, p)
    ensures var r := old(store.model).routes[p]; store.model.routes[p] == r.(turn := r.turn.Abandoned())
  {
    p.AbandonRotation();
    store.Record(Local(p, Abandon), p, agent);
  }

  /** The steps abandon exactly the given routes. */
  ghost predicate AreAbandons(trace: seq<Event>, victims: set<Proxy>) {
    (forall ev :: ev in trace ==> ev.Local? && ev.p in victims && ev.change == Abandon) &&
    (forall p :: p in victims ==> Local(p, Abandon) in trace)
  }

  lemma AbandonsGrow(trace: seq<Event>, victims: set<Proxy>, todo: set<Proxy>, p: Proxy)
    requires AreAbandons(trace, victims - todo) && p in victims
    ensures AreAbandons(trace + [Local(p, Abandon)], victims - (todo - {p}))
  {
    assert Local(p, Abandon) in trace + [Local(p, Abandon)];
  }

  lemma Appended(before: seq<Event>, trace: seq<Event>, ev: Event)
    ensures before + trace + [ev] == before + (trace + [ev])
  {
  }

  /** The routes out of service for a rotation. */
  ghost function OutOfService(w: World): set<Proxy> {
    set p | p in w.routes && w.routes[p].turn.rotating
  }

  /** No route has begun to rotate. */
  ghost predicate NoneBegan(w: World, w': World) {
    w'.gens == w.gens && w'.routes.Keys == w.routes.Keys && OutOfService(w') <= OutOfService(w)
  }

  lemma AbandonBeginsNothing(start: World, w: World, w': World, p: Proxy)
    requires NoneBegan(start, w) && OnlyRoute(w, w', p) && p !in OutOfService(w')
    ensures NoneBegan(start, w')
  {
  }

  method AbandonEach(store: Store, victims: set<Proxy>) returns (ghost trace: seq<Event>)
    requires store.Valid() && victims <= store.model.routes.Keys
    modifies store`model, store`run, victims`rotating, victims`rotationState, victims`nextRetryIn
    ensures store.Valid() && store.live == old(store.live) && NoneBegan(old(store.model), store.model)
    ensures store.Log(Elsewhere) == old(store.Log(Elsewhere)) + trace && AreAbandons(trace, victims)
  {
    trace := [];
    var todo := victims;
    while todo != {}
      modifies store`model, store`run, victims`rotating, victims`rotationState, victims`nextRetryIn
      invariant todo <= victims && todo <= store.model.routes.Keys
      invariant store.Valid() && store.live == old(store.live) && NoneBegan(old(store.model), store.model)
      invariant store.Log(Elsewhere) == old(store.Log(Elsewhere)) + trace && AreAbandons(trace, victims - todo)
    {
      var p :| p in todo;
      ghost var before := store.model;
      AbandonRoute(store, p, Elsewhere);
      AbandonBeginsNothing(old(store.model), before, store.model, p);
      AbandonsGrow(trace, victims, todo, p);
      Appended(old(store.Log(Elsewhere)), trace, Local(p, Abandon));
      todo, trace := todo - {p}, trace + [Local(p, Abandon)];
    }
  }

  // ---- Slots

  // A manual route across reloads, as the engine keys its maps.
  datatype RouteId = RouteId(key: string, kind: Kind)

  function IdOf(p: Proxy): RouteId {
    RouteId(p.key, p.kind)
  }

  // A started procedure: `serial` tells apart two procedures for one route.
  datatype Procedure = Procedure(serial: nat, p: Proxy)

  /** The configured manual routes are those of the generation's pool, but for
      routes the pool does not have. */
  ghost predicate Configures(ids: seq<RouteId>, entries: seq<Proxy>) {
    (forall i, j :: 0 <= i < j < |ids| ==> ids[i] != ids[j]) &&
    (forall e :: e in entries ==> (e.origin == Manual <==> IdOf(e) in ids))
  }

  ghost predicate Listed(entries: seq<Proxy>, id: RouteId) {
    exists e :: e in entries && IdOf(e) == id
  }

  /** Ended by its own generation or a later one: the route is gone for good. */
  ghost predicate Superseded(gens: seq<Generation>, seen: nat, p: Proxy) {
    seen < |gens| && p !in gens[seen].entries
  }

  ghost predicate Admitted(gens: seq<Generation>, seen: nat, p: Proxy) {
    exists i :: 0 <= i <= seen < |gens| && p in gens[i].entries
  }

  /** What the scheduler looked at moves forward; nothing comes back. */
  lemma SeenMoves(gens: seq<Generation>, later: seq<Generation>, seen: nat, k: nat, p: Proxy)
    requires gens <= later && Unbroken(later) && seen <= k < |later| && Admitted(gens, seen, p)
    ensures Admitted(later, k, p)
    ensures Superseded(gens, seen, p) ==> Superseded(later, k, p)
  {
    var i :| 0 <= i <= seen < |gens| && p in gens[i].entries;
    assert p in later[i].entries && gens[seen] == later[seen];
  }

  predicate DueBy(due: map<RouteId, int>, id: RouteId, now: int) {
    id in due && due[id] <= now
  }

  /** No slot is taken away; a slot is given only to a due route of the list,
      with its object in the pool; every such route has one; and the cap is
      exceeded by no new slot. */
  ghost predicate IsAdmission(due: map<RouteId, int>, was: map<RouteId, Proxy>, active: map<RouteId, Proxy>,
                              ids: seq<RouteId>, entries: seq<Proxy>, cap: int, now: int) {
    |active| <= Max(|was|, cap) &&
    (forall id :: id in was ==> id in active && active[id] == was[id]) &&
    (forall id :: id in active && id !in was ==> id in ids && active[id] in entries && DueBy(due, id, now)) &&
    (forall id :: id in ids && DueBy(due, id, now) && Listed(entries, id) ==> id in active)
  }

  lemma AdmissionStep(due: map<RouteId, int>, was: map<RouteId, Proxy>, before: map<RouteId, Proxy>,
                      after: map<RouteId, Proxy>, ids: seq<RouteId>, n: nat, entries: seq<Proxy>, cap: int, now: int)
    requires n < |ids| && IsAdmission(due, was, before, ids[..n], entries, cap, now)
    requires after == before || (ids[n] !in before && ids[n] in after && after == before[ids[n] := after[ids[n]]] &&
                                 after[ids[n]] in entries && DueBy(due, ids[n], now) && |before| < cap &&
                                 |after| == |before| + 1)
    requires DueBy(due, ids[n], now) && Listed(entries, ids[n]) ==> ids[n] in after
    ensures IsAdmission(due, was, after, ids[..n + 1], entries, cap, now)
  {
    assert ids[..n + 1] == ids[..n] + [ids[n]];
  }

  /** The slots of routes still configured. */
  function Configured(active: map<RouteId, Proxy>, ids: seq<RouteId>): map<RouteId, Proxy> {
    map id | id in active && id in ids :: active[id]
  }

  function Removed(active: map<RouteId, Proxy>, ids: seq<RouteId>): set<Proxy> {
    set id | id in active && id !in ids :: active[id]
  }

  function Forgotten(due: map<RouteId, int>, ids: seq<RouteId>): set<RouteId> {
    set id | id in due && id !in ids
  }

  /** Exactly the configured routes are scheduled: as before, or now when new. */
  ghost predicate IsReschedule(was: map<RouteId, int>, due: map<RouteId, int>, ids: seq<RouteId>, now: int) {
    (forall id :: id in due <==> id in ids) &&
    (forall id :: id in due ==> due[id] == if id in was then was[id] else now)
  }

  ghost function RoutesOf(running: set<Procedure>): set<Proxy> {
    set q | q in running :: q.p
  }

  /** A route is out of service for a rotation only while a procedure runs for it. */
  ghost predicate RotatingOwned(w: World, running: set<Procedure>) {
    OutOfService(w) <= RoutesOf(running)
  }

  /** New procedures find their routes in service. */
  lemma AdmittedIdle(w: World, w': World, before: set<Procedure>, running: set<Procedure>)
    requires RotatingOwned(w, before) && NoneBegan(w, w') && before <= running
    requires forall q, r :: q in running && r in running && q.p == r.p ==> q == r
    ensures RotatingOwned(w', running)
    ensures forall q :: q in running && q !in before ==> q.p !in OutOfService(w')
  {
    assert RoutesOf(before) <= RoutesOf(running);
  }

  /** A procedure that has put its route back may end. */
  lemma EndedOwned(w: World, running: set<Procedure>, me: Procedure)
    requires RotatingOwned(w, running) && me.p !in OutOfService(w)
    ensures RotatingOwned(w, running - {me})
  {
    forall p | p in OutOfService(w)
      ensures p in RoutesOf(running - {me})
    {
      var q :| q in running && q.p == p;
      assert q in running - {me};
    }
  }

  /** Nor does a step on a route with a procedure change that. */
  lemma StaysOwned(w: World, w': World, running: set<Procedure>, me: Procedure)
    requires RotatingOwned(w, running) && OnlyRoute(w, w', me.p) && me in running
    ensures RotatingOwned(w', running)
  {
  }

  /** No route object has two procedures. */
  ghost predicate OnePerRoute(running: set<Procedure>) {
    forall q, r :: q in running && r in running && q.p == r.p ==> q == r
  }

  /** Every slot belongs to a running procedure, under the route's own id. */
  ghost predicate SlotsOwned(running: set<Procedure>, active: map<RouteId, Proxy>) {
    forall id :: id in active ==> IdOf(active[id]) == id && exists q :: q in running && q.p == active[id]
  }

  /** A procedure without a slot runs for a route that is gone for good. */
  ghost predicate Accounted(running: set<Procedure>, active: map<RouteId, Proxy>, gens: seq<Generation>, seen: nat,
                            down: bool) {
    forall q :: q in running ==>
      q.p.origin == Manual && Admitted(gens, seen, q.p) &&
      (down || (IdOf(q.p) in active && active[IdOf(q.p)] == q.p) || Superseded(gens, seen, q.p))
  }

  /** A slot for a route that had none, and the procedure that owns it. */
  lemma StartKeeps(running: set<Procedure>, active: map<RouteId, Proxy>, gens: seq<Generation>, seen: nat, q: Procedure)
    requires IdOf(q.p) !in active && q.p.origin == Manual && seen < |gens| && q.p in gens[seen].entries
    requires OnePerRoute(running) && SlotsOwned(running, active) && Accounted(running, active, gens, seen, false)
    ensures OnePerRoute(running + {q}) && SlotsOwned(running + {q}, active[IdOf(q.p) := q.p])
    ensures Accounted(running + {q}, active[IdOf(q.p) := q.p], gens, seen, false)
  {
    forall id | id in active
      ensures exists r :: r in running + {q} && r.p == active[id]
    {
      var r :| r in running && r.p == active[id];
      assert r in running + {q};
    }
  }

  class Engine {
    var due: map<RouteId, int>        // next attempt
    var active: map<RouteId, Proxy>   // the occupied slots
    var consec: map<RouteId, nat>     // attempts in a row that kept the address
    ghost var running: set<Procedure>
    ghost var started: nat
    ghost var gens: seq<Generation>   // what the scheduler knows of the history
    ghost var seen: nat               // the generation it looked at last
    ghost var down: bool              // shut down

    ghost predicate Valid()
      reads this`running, this`active, this`gens, this`seen, this`down, this`started
    {
      OnePerRoute(running) && SlotsOwned(running, active) && Accounted(running, active, gens, seen, down) &&
      forall q :: q in running ==> q.serial < started
    }

    constructor (gens: seq<Generation>)
      ensures Valid() && running == {} && active == map[] && due == map[] && consec == map[]
      ensures this.gens == gens && seen == 0 && !down
    {
      due, active, consec := map[], map[], map[];
      running, started, this.gens, seen, down := {}, 0, gens, 0, false;
    }

    // Routes added by a reload are due at once; removed ones are forgotten.
    method Reschedule(ids: seq<RouteId>, now: int)
      modifies this`due, this`consec
      ensures IsReschedule(old(due), due, ids, now)
      ensures consec == old(consec) - Forgotten(old(due), ids)
    {
      for i := 0 to |ids|
        invariant due.Keys == old(due).Keys + set id | id in ids[..i]
        invariant forall id :: id in due ==> due[id] == if id in old(due) then old(due)[id] else now
        invariant consec == old(consec)
      {
        if ids[i] !in due {
          due := due[ids[i] := now];
        }
      }
      assert ids[..|ids|] == ids;
      var removed := Forgotten(due, ids);
      due, consec := due - removed, consec - removed;
    }

    /** The scheduler looks at a generation. */
    ghost method Look(later: seq<Generation>, k: nat)
      requires Valid() && gens <= later && Unbroken(later) && seen <= k < |later|
      modifies this`gens, this`seen
      ensures Valid() && gens == later && seen == k
    {
      forall q | q in running
        ensures Admitted(later, k, q.p) && (Superseded(gens, seen, q.p) ==> Superseded(later, k, q.p))
      {
        SeenMoves(gens, later, seen, k, q.p);
      }
      gens, seen := later, k;
    }

    // Slots of routes that are configured no more are reused at once; their
    // procedures stop on their own.
    method DropSlots(ids: seq<RouteId>)
      requires Valid() && seen < |gens| && Configures(ids, gens[seen].entries)
      modifies this`active
      ensures Valid() && active == Configured(old(active), ids)
    {
      active := Configured(active, ids);
    }

    lemma SlotsKnown(w: World)
      requires Valid() && w.Valid() && gens <= w.gens
      ensures active.Values <= w.routes.Keys
    {
      forall id | id in active
        ensures active[id] in w.routes
      {
        var q :| q in running && q.p == active[id];
        var i :| 0 <= i <= seen < |gens| && q.p in gens[i].entries;
        assert w.gens[i] in w.gens;
      }
    }

    // One scheduling pass over a loaded generation; `removed` is to be abandoned.
    method Decide(pool: Pool, ghost later: seq<Generation>, ghost k: nat, ids: seq<RouteId>, setting: Concurrency,
                  now: int)
        returns (n: nat, removed: set<Proxy>)
      requires Valid() && !down
      requires gens <= later && Unbroken(later) && seen <= k < |later|
      requires later[k].entries == pool.entries && Configures(ids, pool.entries)
      modifies this
      ensures Valid() && seen == k && n <= |ids| && old(running) <= running
      ensures removed == Removed(old(active), ids)
      ensures IsReschedule(old(due), due, ids, now)
      ensures consec == old(consec) - Forgotten(old(due), ids)
      ensures IsAdmission(due, Configured(old(active), ids), active, ids[..n], pool.entries,
                          ResolveMaxConcurrent(setting, |ids|), now)
      ensures n < |ids| ==> |active| >= ResolveMaxConcurrent(setting, |ids|)
    {
      Reschedule(ids, now);
      Look(later, k);
      removed := Removed(active, ids);
      n := Reassign(pool, ids, ResolveMaxConcurrent(setting, |ids|), now);
    }

    // Slots of routes no longer configured are dropped, then due routes admitted.
    method Reassign(pool: Pool, ids: seq<RouteId>, cap: int, now: int) returns (n: nat)
      requires Valid() && !down && seen < |gens| && gens[seen].entries == pool.entries && Configures(ids, pool.entries)
      modifies this`active, this`running, this`started
      ensures Valid() && n <= |ids| && old(running) <= running
      ensures IsAdmission(due, Configured(old(active), ids), active, ids[..n], pool.entries, cap, now)
      ensures n < |ids| ==> |active| >= cap
    {
      DropSlots(ids);
      n := Admit(pool, ids, cap, now);
    }

    // New procedures start on routes in service; nothing else is put out of it.
    method Evaluate(store: Store, pool: Pool, ghost k: nat, ids: seq<RouteId>, setting: Concurrency, now: int)
        returns (n: nat, removed: set<Proxy>, ghost trace: seq<Event>)
      requires store.Valid() && Valid() && !down && RotatingOwned(store.model, running)
      requires gens <= store.model.gens && Unbroken(store.model.gens)
      requires seen <= k < |store.model.gens| && store.model.gens[k].entries == pool.entries &&
        Configures(ids, pool.entries)
      modifies this, store`model, store`run
      modifies active.Values`rotating, active.Values`rotationState, active.Values`nextRetryIn
      ensures store.Valid() && store.Log(Elsewhere) == old(store.Log(Elsewhere)) + trace
      ensures removed == Removed(old(active), ids) && AreAbandons(trace, removed)
      ensures Valid() && seen == k &&
        |active| <= Max(|Configured(old(active), ids)|, ResolveMaxConcurrent(setting, |ids|))
      ensures RotatingOwned(store.model, running)
      ensures forall q :: q in running && q !in old(running) ==> q.p !in OutOfService(store.model)
    {
      SlotsKnown(store.model);
      n, removed := Decide(pool, store.model.gens, k, ids, setting, now);
      trace := AbandonEach(store, removed);
      AdmittedIdle(old(store.model), store.model, old(running), running);
    }

    // Admits due routes in configuration order until the cap is reached.
    method Admit(pool: Pool, ids: seq<RouteId>, cap: int, now: int) returns (n: nat)
      requires Valid() && !down && seen < |gens| && gens[seen].entries == pool.entries
      requires Configures(ids, pool.entries)
      modifies this`active, this`running, this`started
      ensures Valid() && old(running) <= running && n <= |ids|
      ensures IsAdmission(due, old(active), active, ids[..n], pool.entries, cap, now)
      ensures n < |ids| ==> |active| >= cap
    {
      n := 0;
      while n < |ids|
        invariant n <= |ids| && Valid() && old(running) <= running
        invariant IsAdmission(due, old(active), active, ids[..n], pool.entries, cap, now)
      {
        ghost var was := active;
        var full := Consider(pool, ids, ids[n], cap, now);
        if full {
          return;
        }
        AdmissionStep(due, old(active), was, active, ids, n, pool.entries, cap, now);
        n := n + 1;
      }
    }

    method Consider(pool: Pool, ids: seq<RouteId>, id: RouteId, cap: int, now: int) returns (full: bool)
      requires Valid() && !down && seen < |gens| && gens[seen].entries == pool.entries
      requires Configures(ids, pool.entries) && id in ids
      modifies this`active, this`running, this`started
      ensures Valid() && old(running) <= running
      ensures full ==> active == old(active) && |active| >= cap
      ensures active == old(active) ||
        (id !in old(active) && id in active && active == old(active)[id := active[id]] && active[id] in pool.entries &&
         DueBy(due, id, now) && |old(active)| < cap && |active| == |old(active)| + 1)
      ensures !full && DueBy(due, id, now) && Listed(pool.entries, id) ==> id in active
    {
      if id in active || !DueBy(due, id, now) {
        return false;
      }
      if |active| >= cap {
        return true;
      }
      var p := pool.Lookup(id.key, id.kind);
      if p != null {
        Start(id, p);
      }
      return false;
    }

    method Start(id: RouteId, p: Proxy)
      requires Valid() && !down && id !in active && IdOf(p) == id && p.origin == Manual
      requires seen < |gens| && p in gens[seen].entries
      modifies this`active, this`running, this`started
      ensures Valid() && active == old(active)[id := p] && |active| == |old(active)| + 1
      ensures old(running) <= running
    {
      ghost var q := Procedure(started, p);
      StartKeeps(running, active, gens, seen, q);
      active := active[id := p];
      running, started := running + {q}, started + 1;
    }

    // A procedure ended: its slot is freed, but never its replacement's.
    method FinishProcedure(ghost me: Procedure, id: RouteId, p: Proxy)
      requires Valid() && me in running && me.p == p && IdOf(p) == id
      modifies this`active, this`running
      ensures Valid() && running == old(running) - {me}
      ensures active == if id in old(active) && old(active)[id] == p then old(active) - {id} else old(active)
    {
      if id in active && active[id] == p {
        active := active - {id};
      }
      running := running - {me};
    }

    method SetDue(id: RouteId, at: int)
      modifies this`due
      ensures due == old(due)[id := at]
    {
      due := due[id := at];
    }

    method BumpConsecutive(id: RouteId) returns (run: nat)
      modifies this`consec
      ensures run == (if id in old(consec) then old(consec)[id] else 0) + 1
      ensures consec == old(consec)[id := run]
    {
      run := (if id in consec then consec[id] else 0) + 1;
      consec := consec[id := run];
    }

    method ClearConsecutive(id: RouteId)
      modifies this`consec
      ensures consec == old(consec) - {id}
    {
      consec := consec - {id};
    }

    // Shutdown: every slot is cleared and its route abandoned.
    method AbortAll(store: Store) returns (ghost trace: seq<Event>)
      requires store.Valid() && Valid() && active.Values <= store.model.routes.Keys
      modifies this`active, this`down, store`model, store`run
      modifies active.Values`rotating, active.Values`rotationState, active.Values`nextRetryIn
      ensures store.Valid() && AreAbandons(trace, old(active).Values)
      ensures store.Log(Elsewhere) == old(store.Log(Elsewhere)) + trace
      ensures Valid() && active == map[] && down
    {
      var victims := active.Values;
      ClearSlots();
      trace := AbandonEach(store, victims);
    }

    method ClearSlots()
      requires Valid()
      modifies this`active, this`down
      ensures Valid() && active == map[] && down
    {
      active, down := map[], true;
    }
  }
}
