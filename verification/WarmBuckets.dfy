// The warm pool as a protocol: per-route buckets of parked half connections,
// claimed dials in the air, and a ledger of every half connection ever dialled.
// Each critical section is one step; rotations, and dials returning, may fall
// between any two of them. Time and configuration are arguments of the steps.
module WarmBuckets {
  import opened Common
  import opened Routes
  import Handshake

  // A half-established upstream connection; here only its identity matters.
  type HalfConn = Handshake.HalfConn

  datatype Config = Config(enabled: bool, minIdle: int, maxIdle: int, maxTotal: int,
                           maxConcurrency: int, perRoute: int, idleTTL: int)
  {
    predicate Validated() {
      0 <= minIdle <= maxIdle && 1 <= maxIdle <= maxTotal && 1 <= maxTotal &&
      1 <= maxConcurrency && 0 <= perRoute && 0 < idleTTL
    }
  }

  datatype WarmConn = WarmConn(hc: HalfConn, epoch: nat, created: int)

  datatype Bucket = Bucket(ready: seq<WarmConn>, pending: int, flying: int, failStreak: nat,
                           backoffUntil: Option<int>, authBroken: bool, authBrokenEpoch: nat)
  {
    /** What the route is owed: parked, scheduled or in the air. */
    function Owed(): int {
      |ready| + pending + flying
    }
  }

  const EMPTY: Bucket := Bucket([], 0, 0, 0, None, false, 0)

  // The bucket object of one route. A dial keeps a reference to the bucket it
  // was claimed from even after a sweep has dropped it from the map.
  class RouteBucket {
    const p: Proxy
    var ready: seq<WarmConn>
    var pending: int
    var flying: int
    var failStreak: nat
    var backoffUntil: Option<int>
    var authBroken: bool
    var authBrokenEpoch: nat

    ghost function View(): Bucket
      reads this
    {
      Bucket(ready, pending, flying, failStreak, backoffUntil, authBroken, authBrokenEpoch)
    }

    constructor (p: Proxy)
      ensures this.p == p && View() == EMPTY
    {
      this.p := p;
      ready, pending, flying, failStreak := [], 0, 0, 0;
      backoffUntil, authBroken, authBrokenEpoch := None, false, 0;
    }

    // A dial came back: its reservation ends, and so does a streak of failures.
    method Put(wc: WarmConn)
      modifies this`flying, this`failStreak, this`backoffUntil, this`ready
      ensures View() == old(View()).(flying := old(flying) - 1, failStreak := 0, backoffUntil := None,
                                     ready := old(ready) + [wc])
    {
      flying := flying - 1;
      failStreak, backoffUntil := 0, None;
      ready := ready + [wc];
    }
  }

  // One claimed dial; `id` tells apart claims from the same bucket.
  datatype Task = Task(id: nat, p: Proxy, b: RouteBucket, epoch: nat)

  // Where a dialled half connection is.
  datatype Place = InHands(t: Task) | Parked(b: RouteBucket) | Lent | Closed

  datatype State = State(
    index: map<Proxy, RouteBucket>,      // the bucket map
    cells: map<RouteBucket, Bucket>,     // every bucket ever made
    epochs: map<Proxy, nat>,             // the rotation epoch of every route seen
    stopped: bool,
    claims: nat,                         // dials claimed so far
    tasks: set<Task>,                    // claimed and not finished
    dialled: map<HalfConn, Task>,        // every connection a dial returned
    place: map<HalfConn, Place>)         // where it is now
  {
    /** The bucket is the one its route maps to. */
    predicate Mapped(b: RouteBucket) {
      b.p in index && index[b.p] == b
    }
  }

  // ---- Steps

  /** The connections a sweep keeps: current epoch, not expired, in order. */
  function Retained(ready: seq<WarmConn>, epoch: nat, now: int, ttl: int): (kept: seq<WarmConn>) {
    if ready == [] then [] else
      var last := ready[|ready| - 1];
      var before := Retained(ready[..|ready| - 1], epoch, now, ttl);
      if last.epoch != epoch || now - last.created > ttl then before else before + [last]
  }

  /** The newest beyond the bound are dropped. */
  function Trimmed(ready: seq<WarmConn>, bound: int): seq<WarmConn>
    requires 0 <= bound
  {
    if |ready| <= bound then ready else ready[..bound]
  }

  /** What a sweep leaves parked in one bucket. */
  function SweptReady(ready: seq<WarmConn>, epoch: nat, cfg: Config, now: int): seq<WarmConn>
    requires cfg.Validated()
  {
    Trimmed(Retained(ready, epoch, now, cfg.idleTTL), cfg.maxIdle)
  }

  /** A bucket after the maintenance part of a sweep. */
  function Maintained(b: Bucket, epoch: nat, cfg: Config, now: int): Bucket
    requires cfg.Validated()
  {
    b.(authBroken := b.authBroken && b.authBrokenEpoch == epoch,
       ready := SweptReady(b.ready, epoch, cfg, now))
  }

  /** May receive new dials now; `calm` holds the routes that are neither
      rotating, nor auth-blocked, nor cooling. */
  predicate Replenishable(p: Proxy, b: Bucket, calm: set<Proxy>, now: int) {
    p in calm && !b.authBroken && !(b.backoffUntil.Some? && now < b.backoffUntil.value)
  }

  ghost function IdleCounts(s: State): map<Proxy, int>
    requires forall p :: p in s.index ==> s.index[p] in s.cells
  {
    map p | p in s.index :: |s.cells[s.index[p]].ready|
  }

  /** All parked connections of mapped buckets. */
  ghost function TotalIdle(s: State): int
    requires forall p :: p in s.index ==> s.index[p] in s.cells
  {
    Total(IdleCounts(s))
  }

  datatype Event =
    | Seen(routes: map<Proxy, nat>)
    | Rotate(p: Proxy)
    | Sweep(live: set<Proxy>, made: map<Proxy, RouteBucket>, calm: set<Proxy>, cfg: Config, now: int,
            added: map<Proxy, int>)
    | Claim(t: Task, calm: set<Proxy>, cfg: Config, now: int)
    | Returned(t: Task, hc: HalfConn)
    | Completed(t: Task, hc: HalfConn, cfg: Config, now: int)
    | DialFailed(t: Task, auth: bool, wait: int, now: int)
    | Borrow(p: Proxy, cfg: Config)
    | Discard(p: Proxy)
    | Stop

  ghost predicate Indexed(s: State) {
    forall p :: p in s.index ==> s.index[p] in s.cells && s.index[p].p == p && p in s.epochs
  }

  ghost predicate Holds(ready: seq<WarmConn>, hc: HalfConn) {
    exists i :: 0 <= i < |ready| && ready[i].hc == hc
  }

  // The parts of a sweep, in the order of the source.

  /** Every connection parked in the given buckets is closed. */
  ghost function Emptied(s: State, gone: set<RouteBucket>): State {
    s.(cells := map b | b in s.cells :: if b in gone then s.cells[b].(ready := []) else s.cells[b],
       place := map hc | hc in s.place :: if s.place[hc].Parked? && s.place[hc].b in gone then Closed else s.place[hc])
  }

  /** The buckets of routes that are gone. */
  function Dead(index: map<Proxy, RouteBucket>, live: set<Proxy>): set<RouteBucket> {
    set p | p in index && p !in live :: index[p]
  }

  function Surviving(index: map<Proxy, RouteBucket>, live: set<Proxy>): map<Proxy, RouteBucket> {
    map p | p in index && p in live :: index[p]
  }

  /** Routes that are gone lose their bucket. */
  ghost function Pruned(s: State, live: set<Proxy>): State {
    Emptied(s, Dead(s.index, live)).(index := Surviving(s.index, live))
  }

  ghost function Opened(cells: map<RouteBucket, Bucket>, made: map<Proxy, RouteBucket>): map<RouteBucket, Bucket> {
    cells + map b | b in made.Values :: EMPTY
  }

  /** Every live route has a bucket. */
  ghost function Adopted(s: State, made: map<Proxy, RouteBucket>): State {
    s.(index := s.index + made, cells := Opened(s.cells, made))
  }

  /** In the given buckets, stale generations and expired connections are
      closed, then the excess. */
  ghost function MaintainedOn(s: State, on: set<RouteBucket>, cfg: Config, now: int): State
    requires cfg.Validated() && forall b :: b in on ==> b in s.cells && b.p in s.epochs
  {
    s.(cells := map b | b in s.cells :: if b in on then Maintained(s.cells[b], s.epochs[b.p], cfg, now) else s.cells[b],
       place := map hc | hc in s.place ::
         if s.place[hc].Parked? && s.place[hc].b in on &&
            !Holds(Maintained(s.cells[s.place[hc].b], s.epochs[s.place[hc].b.p], cfg, now).ready, hc)
         then Closed else s.place[hc])
  }

  ghost function MaintainedAll(s: State, cfg: Config, now: int): State
    requires Indexed(s) && cfg.Validated()
  {
    MaintainedOn(s, s.index.Values, cfg, now)
  }

  /** What is missing for each route's minimum; nothing when it may not be dialled now. */
  ghost function Missing(s: State, calm: set<Proxy>, cfg: Config, now: int): map<Proxy, int>
    requires Indexed(s)
  {
    map p | p in s.index ::
      if Replenishable(p, s.cells[s.index[p]], calm, now) then Max(0, cfg.minIdle - s.cells[s.index[p]].Owed()) else 0
  }

  /** Up to `room` in all is filled, and every gap if there is room for all. */
  ghost predicate FillsUp(added: map<Proxy, int>, missing: map<Proxy, int>, room: int) {
    added.Keys <= missing.Keys &&
    (forall p :: p in added ==> 0 <= added[p] <= missing[p]) &&
    Total(added) <= Max(0, room) &&
    (Total(added) < room ==> forall p :: p in added ==> added[p] == missing[p])
  }

  /** The deficit scheduling of a sweep, under the idle ceiling. */
  ghost predicate IsSchedule(s: State, added: map<Proxy, int>, calm: set<Proxy>, cfg: Config, now: int)
    requires Indexed(s)
  {
    added.Keys == s.index.Keys && FillsUp(added, Missing(s, calm, cfg, now), cfg.maxTotal - TotalIdle(s))
  }

  ghost function Raised(cells: map<RouteBucket, Bucket>, on: set<RouteBucket>, added: map<Proxy, int>)
      : map<RouteBucket, Bucket>
    requires forall b :: b in on ==> b.p in added
  {
    map b | b in cells :: if b in on then cells[b].(pending := cells[b].pending + added[b.p]) else cells[b]
  }

  ghost function Scheduled(s: State, added: map<Proxy, int>): State
    requires Indexed(s) && added.Keys == s.index.Keys
  {
    s.(cells := Raised(s.cells, s.index.Values, added))
  }

  /** The state of a sweep before it schedules. */
  ghost function Maintenance(s: State, live: set<Proxy>, made: map<Proxy, RouteBucket>, cfg: Config, now: int): State
    requires Indexed(s) && cfg.Validated() && MadeFor(s, live, made)
  {
    MaintainedAll(Adopted(Pruned(s, live), made), cfg, now)
  }

  /** New, unshared buckets for exactly the live routes without one. */
  ghost predicate MadeFor(s: State, live: set<Proxy>, made: map<Proxy, RouteBucket>) {
    live <= s.epochs.Keys && made.Keys == live - s.index.Keys &&
    forall p :: p in made ==> made[p].p == p && made[p] !in s.cells
  }

  /** May be claimed: a scheduled dial of a mapped, replenishable bucket, under
      the idle ceiling and the per-route cap. */
  ghost predicate Claimable(s: State, p: Proxy, calm: set<Proxy>, cfg: Config, now: int)
    requires Indexed(s)
  {
    !s.stopped && cfg.enabled && TotalIdle(s) < cfg.maxTotal && p in s.index &&
    var b := s.cells[s.index[p]];
    b.pending != 0 && !(cfg.perRoute > 0 && b.flying >= cfg.perRoute) && Replenishable(p, b, calm, now)
  }

  /** A finished dial may park: nothing changed under it that forbids it. */
  ghost predicate Parkable(s: State, t: Task, cfg: Config)
    requires Indexed(s) && t.b in s.cells && t.p in s.epochs
  {
    s.epochs[t.p] == t.epoch && !s.stopped && t.p in s.index && s.index[t.p] == t.b && cfg.enabled &&
    |s.cells[t.b].ready| < cfg.maxIdle && TotalIdle(s) < cfg.maxTotal
  }

  /** Some connection of the dial is in its worker's hands. */
  ghost predicate Holding(s: State, t: Task) {
    exists hc :: hc in s.place && s.place[hc] == InHands(t)
  }

  ghost predicate Enabled(s: State, ev: Event)
    requires Indexed(s)
  {
    match ev
    case Seen(routes) => routes.Keys !! s.epochs.Keys
    case Rotate(p) => p in s.epochs
    case Sweep(live, made, calm, cfg, now, added) =>
      s.stopped || (cfg.Validated() && MadeFor(s, live, made) &&
      (cfg.enabled ==> IsSchedule(Maintenance(s, live, made, cfg, now), added, calm, cfg, now)))
    case Claim(t, calm, cfg, now) =>
      Claimable(s, t.p, calm, cfg, now) && t == Task(s.claims, t.p, s.index[t.p], s.epochs[t.p])
    case Returned(t, hc) => t in s.tasks && !Holding(s, t) && hc !in s.place
    case Completed(t, hc, cfg, _) =>
      t in s.tasks && t.b in s.cells && t.p in s.epochs && hc in s.place && s.place[hc] == InHands(t)
    case DialFailed(t, _, _, _) => t in s.tasks && t.b in s.cells && t.p in s.epochs && !Holding(s, t)
    case Borrow(_, _) => true
    case Discard(_) => true
    case Stop => true
  }

  /** Scheduled dials are dropped. */
  ghost function Cancelled(cells: map<RouteBucket, Bucket>, on: set<RouteBucket>): map<RouteBucket, Bucket> {
    map b | b in cells :: if b in on then cells[b].(pending := 0) else cells[b]
  }

  /** What a borrow hands out. */
  ghost function Borrowed(s: State, p: Proxy, cfg: Config): Option<HalfConn>
    requires Indexed(s)
  {
    if cfg.enabled && p in s.index && s.cells[s.index[p]].ready != [] &&
       s.cells[s.index[p]].ready[0].epoch == s.epochs[p]
    then Some(s.cells[s.index[p]].ready[0].hc) else None
  }

  ghost function Apply(s: State, ev: Event): State
    requires Indexed(s) && Enabled(s, ev)
  {
    match ev
    case Seen(routes) => s.(epochs := s.epochs + routes)
    case Rotate(p) => s.(epochs := s.epochs[p := s.epochs[p] + 1])
    case Sweep(live, made, calm, cfg, now, added) =>
      if s.stopped then s else
        var kept := Maintenance(s, live, made, cfg, now);
        if cfg.enabled then Scheduled(kept, added) else Emptied(kept, kept.index.Values)
    case Claim(t, _, _, _) =>
      var b := s.cells[t.b];
      s.(cells := s.cells[t.b := b.(pending := b.pending - 1, flying := b.flying + 1)],
         tasks := s.tasks + {t}, claims := s.claims + 1)
    case Returned(t, hc) => s.(dialled := s.dialled[hc := t], place := s.place[hc := InHands(t)])
    case Completed(t, hc, cfg, now) =>
      var b := s.cells[t.b].(flying := s.cells[t.b].flying - 1);
      if Parkable(s, t, cfg) then
        s.(cells := s.cells[t.b := b.(failStreak := 0, backoffUntil := None,
                                      ready := b.ready + [WarmConn(hc, t.epoch, now)])],
           tasks := s.tasks - {t}, place := s.place[hc := Parked(t.b)])
      else
        s.(cells := s.cells[t.b := b], tasks := s.tasks - {t}, place := s.place[hc := Closed])
    case DialFailed(t, auth, wait, now) =>
      var b := s.cells[t.b].(flying := s.cells[t.b].flying - 1);
      s.(cells := s.cells[t.b := if auth then b.(authBroken := true, authBrokenEpoch := s.epochs[t.p])
                                 else b.(failStreak := b.failStreak + 1, backoffUntil := Some(now + wait))],
         tasks := s.tasks - {t})
    case Borrow(p, cfg) =>
      if !cfg.enabled || p !in s.index || s.cells[s.index[p]].ready == [] then s else
        var b := s.cells[s.index[p]];
        s.(cells := s.cells[s.index[p] := b.(ready := b.ready[1..])],
           place := s.place[b.ready[0].hc := if Borrowed(s, p, cfg).Some? then Lent else Closed])
    case Discard(p) => if p in s.index then Emptied(s, {s.index[p]}) else s
    case Stop =>
      var drained := Emptied(s, s.index.Values);
      drained.(stopped := true, cells := Cancelled(drained.cells, s.index.Values))
  }
}
