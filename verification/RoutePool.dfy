// The shared route pool of one generation: selection, health reports, the
// rotation commit and the reload that builds the next generation's pool.
module RoutePool {
  import opened Common
  import opened Cooldown
  import opened Routes

  // ---- Selection, specified as two scans over the list

  type Views = map<Proxy, Route>

  ghost predicate Viewed(entries: seq<Proxy>, v: Views) {
    forall e :: e in entries ==> e in v
  }

  /** The route may be offered for this pick and can serve the target now. */
  ghost predicate Eligible(v: Views, ok: set<Proxy>, target: string, now: int, e: Proxy)
    requires e in v
  {
    e in ok && v[e].AvailableFor(target, now)
  }

  /** The route may be offered for this pick and only has to cool down. */
  ghost predicate Recovering(v: Views, ok: set<Proxy>, target: string, now: int, e: Proxy)
    requires e in v
  {
    e in ok && !v[e].AvailableFor(target, now) && v[e].MayRecover()
  }

  /** First in the list among the eligible routes of least pass. */
  ghost predicate LeastServed(entries: seq<Proxy>, v: Views, ok: set<Proxy>, target: string, now: int, i: nat)
    requires Viewed(entries, v)
  {
    i < |entries| && Eligible(v, ok, target, now, entries[i]) &&
    forall j :: 0 <= j < |entries| && Eligible(v, ok, target, now, entries[j]) ==>
      v[entries[i]].pass <= v[entries[j]].pass && (j < i ==> v[entries[i]].pass < v[entries[j]].pass)
  }

  /** First in the list among the recovering routes of least recovery time. */
  ghost predicate SoonestRecovery(entries: seq<Proxy>, v: Views, ok: set<Proxy>, target: string, now: int, i: nat)
    requires Viewed(entries, v)
  {
    i < |entries| && Recovering(v, ok, target, now, entries[i]) &&
    forall j :: 0 <= j < |entries| && Recovering(v, ok, target, now, entries[j]) ==>
      v[entries[i]].EffectiveCooldown(target) <= v[entries[j]].EffectiveCooldown(target) &&
      (j < i ==> v[entries[i]].EffectiveCooldown(target) < v[entries[j]].EffectiveCooldown(target))
  }

  /** What a pick returns: the least recently served eligible route, else the
      one that recovers soonest, and nothing exactly when neither exists. */
  ghost predicate IsPick(entries: seq<Proxy>, v: Views, ok: set<Proxy>, target: string, now: int, r: Proxy?)
    requires Viewed(entries, v)
  {
    if exists e :: e in entries && Eligible(v, ok, target, now, e) then
      exists i: nat :: LeastServed(entries, v, ok, target, now, i) && r == entries[i]
    else if exists e :: e in entries && Recovering(v, ok, target, now, e) then
      exists i: nat :: SoonestRecovery(entries, v, ok, target, now, i) && r == entries[i]
    else
      r == null
  }

  /** The two scans leave no choice. */
  lemma PickIsUnique(entries: seq<Proxy>, v: Views, ok: set<Proxy>, target: string, now: int, r: Proxy?, r': Proxy?)
    requires Viewed(entries, v)
    requires IsPick(entries, v, ok, target, now, r) && IsPick(entries, v, ok, target, now, r')
    ensures r == r'
  {
    if exists e :: e in entries && Eligible(v, ok, target, now, e) {
      var i: nat :| LeastServed(entries, v, ok, target, now, i) && r == entries[i];
      var j: nat :| LeastServed(entries, v, ok, target, now, j) && r' == entries[j];
      assert i == j;
    } else if exists e :: e in entries && Recovering(v, ok, target, now, e) {
      var i: nat :| SoonestRecovery(entries, v, ok, target, now, i) && r == entries[i];
      var j: nat :| SoonestRecovery(entries, v, ok, target, now, j) && r' == entries[j];
      assert i == j;
    }
  }

  /** A picked route is offered, unblocked and not rotating; it is cooling only
      when nothing offered can serve the target now. */
  lemma PickedRoute(entries: seq<Proxy>, v: Views, ok: set<Proxy>, target: string, now: int, r: Proxy)
    requires Viewed(entries, v) && IsPick(entries, v, ok, target, now, r)
    ensures r in entries && r in ok && v[r].MayRecover()
    ensures v[r].AvailableFor(target, now) || forall e :: e in entries ==> !Eligible(v, ok, target, now, e)
  {
  }

  /** `avail` lists the eligible entries in list order, at positions `at`. */
  ghost predicate IsAvail(entries: seq<Proxy>, v: Views, ok: set<Proxy>, target: string, now: int, avail: seq<Proxy>,
                          at: seq<nat>)
    requires Viewed(entries, v)
  {
    |at| == |avail| &&
    (forall k :: 0 <= k < |at| ==>
      at[k] < |entries| && avail[k] == entries[at[k]] && Eligible(v, ok, target, now, avail[k])) &&
    (forall k, l :: 0 <= k < l < |at| ==> at[k] < at[l]) &&
    (forall j :: 0 <= j < |entries| && Eligible(v, ok, target, now, entries[j]) ==> j in at)
  }

  /** `fallback`, at position `at`, is the soonest recovery of the list so far. */
  ghost predicate IsFallback(entries: seq<Proxy>, v: Views, ok: set<Proxy>, target: string, now: int,
                             fallback: Proxy?, at: nat)
    requires Viewed(entries, v)
  {
    if fallback == null then forall j :: 0 <= j < |entries| ==> !Recovering(v, ok, target, now, entries[j])
    else SoonestRecovery(entries, v, ok, target, now, at) && fallback == entries[at]
  }

  lemma ExtendAvail(entries: seq<Proxy>, e: Proxy, v: Views, ok: set<Proxy>, target: string, now: int,
                    avail: seq<Proxy>, at: seq<nat>)
    requires Viewed(entries + [e], v) && Viewed(entries, v)
    requires IsAvail(entries, v, ok, target, now, avail, at)
    ensures if Eligible(v, ok, target, now, e)
      then IsAvail(entries + [e], v, ok, target, now, avail + [e], at + [|entries|])
      else IsAvail(entries + [e], v, ok, target, now, avail, at)
  {
    var more := entries + [e];
    if Eligible(v, ok, target, now, e) {
      assert (at + [|entries|])[|at|] == |entries|;
      forall j | 0 <= j < |more| && Eligible(v, ok, target, now, more[j])
        ensures j in at + [|entries|]
      {
        assert j < |entries| ==> more[j] == entries[j];
      }
    }
  }

  lemma ExtendFallback(entries: seq<Proxy>, e: Proxy, v: Views, ok: set<Proxy>, target: string, now: int,
                       fallback: Proxy?, at: nat)
    requires Viewed(entries + [e], v) && Viewed(entries, v)
    requires IsFallback(entries, v, ok, target, now, fallback, at)
    ensures if Recovering(v, ok, target, now, e) &&
               (fallback == null || v[e].EffectiveCooldown(target) < v[fallback].EffectiveCooldown(target))
      then IsFallback(entries + [e], v, ok, target, now, e, |entries|)
      else IsFallback(entries + [e], v, ok, target, now, fallback, at)
  {
    var more := entries + [e];
    assert forall j :: 0 <= j < |entries| ==> more[j] == entries[j];
    assert more[|entries|] == e;
  }

  // The two accumulators of the fused scan after the entries of a list.

  ghost function AvailOf(entries: seq<Proxy>, v: Views, ok: set<Proxy>, target: string, now: int): (avail: seq<Proxy>)
    requires Viewed(entries, v)
    ensures forall a :: a in avail ==> a in entries
  {
    if entries == [] then [] else
      var before := AvailOf(entries[..|entries| - 1], v, ok, target, now);
      var e := entries[|entries| - 1];
      if Eligible(v, ok, target, now, e) then before + [e] else before
  }

  ghost function FallbackOf(entries: seq<Proxy>, v: Views, ok: set<Proxy>, target: string, now: int): (r: Proxy?)
    requires Viewed(entries, v)
    ensures r != null ==> r in entries
  {
    if entries == [] then null else
      var before := FallbackOf(entries[..|entries| - 1], v, ok, target, now);
      var e := entries[|entries| - 1];
      if Recovering(v, ok, target, now, e) &&
         (before == null || v[e].EffectiveCooldown(target) < v[before].EffectiveCooldown(target)) then e else before
  }

  lemma {:induction false} AvailPositions(entries: seq<Proxy>, v: Views, ok: set<Proxy>, target: string, now: int)
      returns (at: seq<nat>)
    requires Viewed(entries, v)
    ensures IsAvail(entries, v, ok, target, now, AvailOf(entries, v, ok, target, now), at)
  {
    if entries == [] {
      at := [];
    } else {
      var before, e := entries[..|entries| - 1], entries[|entries| - 1];
      at := AvailPositions(before, v, ok, target, now);
      ExtendAvail(before, e, v, ok, target, now, AvailOf(before, v, ok, target, now), at);
      assert before + [e] == entries;
      if Eligible(v, ok, target, now, e) {
        at := at + [|before|];
      }
    }
  }

  lemma {:induction false} FallbackPosition(entries: seq<Proxy>, v: Views, ok: set<Proxy>, target: string, now: int)
      returns (at: nat)
    requires Viewed(entries, v)
    ensures IsFallback(entries, v, ok, target, now, FallbackOf(entries, v, ok, target, now), at)
  {
    at := 0;
    if entries != [] {
      var before, e := entries[..|entries| - 1], entries[|entries| - 1];
      at := FallbackPosition(before, v, ok, target, now);
      var fallback := FallbackOf(before, v, ok, target, now);
      ExtendFallback(before, e, v, ok, target, now, fallback, at);
      assert before + [e] == entries;
      if FallbackOf(entries, v, ok, target, now) != fallback {
        at := |before|;
      }
    }
  }

  ghost predicate IsFirstLeast(v: Views, avail: seq<Proxy>, k: nat)
    requires Viewed(avail, v)
  {
    k < |avail| && forall j :: 0 <= j < |avail| ==>
      v[avail[k]].pass <= v[avail[j]].pass && (j < k ==> v[avail[k]].pass < v[avail[j]].pass)
  }

  lemma {:induction false} FirstLeastExists(v: Views, avail: seq<Proxy>) returns (k: nat)
    requires Viewed(avail, v) && avail != []
    ensures IsFirstLeast(v, avail, k)
  {
    var last := |avail| - 1;
    k := last;
    if last > 0 {
      var before := avail[..last];
      k := FirstLeastExists(v, before);
      assert forall j :: 0 <= j < last ==> before[j] == avail[j];
      if v[avail[last]].pass < v[avail[k]].pass {
        k := last;
      }
    }
  }

  lemma PickExists(entries: seq<Proxy>, v: Views, ok: set<Proxy>, target: string, now: int)
    requires Viewed(entries, v)
    ensures exists r: Proxy? :: (r == null || r in entries) && IsPick(entries, v, ok, target, now, r)
  {
    var avail := AvailOf(entries, v, ok, target, now);
    if avail == [] {
      FallbackPicks(entries, v, ok, target, now);
    } else {
      var k := FirstLeastExists(v, avail);
      LeastOfAvailable(entries, v, ok, target, now, k);
    }
  }

  /** The pick of the two scans. */
  ghost function Pick(entries: seq<Proxy>, v: Views, ok: set<Proxy>, target: string, now: int): (r: Proxy?)
    requires Viewed(entries, v)
    ensures IsPick(entries, v, ok, target, now, r)
    ensures r == null || r in entries
  {
    PickExists(entries, v, ok, target, now);
    var r: Proxy? :| (r == null || r in entries) && IsPick(entries, v, ok, target, now, r);
    r
  }

  /** The fused scan decides the pick: the least pass of what was collected, or
      the fallback when nothing was. */
  lemma FusedScanPicks(entries: seq<Proxy>, v: Views, ok: set<Proxy>, target: string, now: int, k: nat)
    requires Viewed(entries, v)
    ensures var avail := AvailOf(entries, v, ok, target, now);
      if avail == [] then Pick(entries, v, ok, target, now) == FallbackOf(entries, v, ok, target, now)
      else IsFirstLeast(v, avail, k) ==> Pick(entries, v, ok, target, now) == avail[k]
  {
    var avail := AvailOf(entries, v, ok, target, now);
    if avail == [] {
      FallbackPicks(entries, v, ok, target, now);
      PickIsUnique(entries, v, ok, target, now, Pick(entries, v, ok, target, now),
                   FallbackOf(entries, v, ok, target, now));
    } else if IsFirstLeast(v, avail, k) {
      LeastOfAvailable(entries, v, ok, target, now, k);
      PickIsUnique(entries, v, ok, target, now, Pick(entries, v, ok, target, now), avail[k]);
    }
  }

  lemma FallbackPicks(entries: seq<Proxy>, v: Views, ok: set<Proxy>, target: string, now: int)
    requires Viewed(entries, v) && AvailOf(entries, v, ok, target, now) == []
    ensures IsPick(entries, v, ok, target, now, FallbackOf(entries, v, ok, target, now))
  {
    var at := AvailPositions(entries, v, ok, target, now);
    var i := FallbackPosition(entries, v, ok, target, now);
    var fallback := FallbackOf(entries, v, ok, target, now);
    assert fallback != null ==> entries[i] in entries;
  }

  lemma LeastOfAvailable(entries: seq<Proxy>, v: Views, ok: set<Proxy>, target: string, now: int, k: nat)
    requires Viewed(entries, v) && IsFirstLeast(v, AvailOf(entries, v, ok, target, now), k)
    ensures IsPick(entries, v, ok, target, now, AvailOf(entries, v, ok, target, now)[k])
  {
    var avail := AvailOf(entries, v, ok, target, now);
    var at := AvailPositions(entries, v, ok, target, now);
    forall j | 0 <= j < |entries| && Eligible(v, ok, target, now, entries[j])
      ensures v[avail[k]].pass <= v[entries[j]].pass && (j < at[k] ==> v[avail[k]].pass < v[entries[j]].pass)
    {
      var l :| 0 <= l < |at| && at[l] == j;
      assert avail[l] == entries[j];
    }
    assert LeastServed(entries, v, ok, target, now, at[k]);
    assert avail[k] in entries;
  }

  /** A pick looks at the listed routes only. */
  lemma PickLooksAtEntries(entries: seq<Proxy>, v: Views, w: Views, ok: set<Proxy>, target: string, now: int)
    requires Viewed(entries, v) && Viewed(entries, w)
    requires forall e :: e in entries ==> v[e] == w[e]
    ensures Pick(entries, v, ok, target, now) == Pick(entries, w, ok, target, now)
  {
    SameFold(entries, v, w, ok, target, now);
    var avail := AvailOf(entries, v, ok, target, now);
    if avail == [] {
      FusedScanPicks(entries, v, ok, target, now, 0);
      FusedScanPicks(entries, w, ok, target, now, 0);
    } else {
      var k := FirstLeastExists(v, avail);
      FusedScanPicks(entries, v, ok, target, now, k);
      FusedScanPicks(entries, w, ok, target, now, k);
    }
  }

  lemma {:induction false} SameFold(entries: seq<Proxy>, v: Views, w: Views, ok: set<Proxy>, target: string, now: int)
    requires Viewed(entries, v) && Viewed(entries, w)
    requires forall e :: e in entries ==> v[e] == w[e]
    ensures AvailOf(entries, v, ok, target, now) == AvailOf(entries, w, ok, target, now)
    ensures FallbackOf(entries, v, ok, target, now) == FallbackOf(entries, w, ok, target, now)
  {
    if entries != [] {
      SameFold(entries[..|entries| - 1], v, w, ok, target, now);
    }
  }

  // ---- Route lists

  // A validated route line of the configuration.
  datatype RouteSpec = RouteSpec(key: string, kind: Kind, origin: Origin, id: string)

  /** The identity under which a reload keeps route state. */
  predicate SameRoute(p: Proxy, spec: RouteSpec) {
    p.key == spec.key && p.kind == spec.kind && p.origin == spec.origin
  }

  predicate DistinctSpecs(specs: seq<RouteSpec>) {
    forall i, j :: 0 <= i < j < |specs| ==> specs[i].key != specs[j].key
  }

  ghost predicate DistinctRoutes(entries: seq<Proxy>) {
    forall i, j :: 0 <= i < j < |entries| ==> entries[i].key != entries[j].key
  }

  /** The smallest pass of the list, 0 when it is empty. */
  ghost predicate IsAnchor(entries: seq<Proxy>, v: Views, anchor: nat)
    requires Viewed(entries, v)
  {
    if entries == [] then anchor == 0 else
      (exists e :: e in entries && v[e].pass == anchor) && forall e :: e in entries ==> anchor <= v[e].pass
  }

  /** The entry a reload lists for a spec: the one of the same URL, kind and
      origin if the old list has it, else a new route that is not in the old list. */
  ghost predicate KeepsOrBuilds(entries: seq<Proxy>, spec: RouteSpec, p: Proxy) {
    SameRoute(p, spec) && forall e :: e in entries && SameRoute(e, spec) ==> e == p
  }

  ghost predicate IsReload(entries: seq<Proxy>, specs: seq<RouteSpec>, next: seq<Proxy>) {
    |next| == |specs| && DistinctRoutes(next) && forall i :: 0 <= i < |specs| ==>
      KeepsOrBuilds(entries, specs[i], next[i])
  }

  /** Exactly the named specs label their routes. */
  ghost predicate IsLabelView(specs: seq<RouteSpec>, next: seq<Proxy>, ids: map<Proxy, string>)
    requires |next| == |specs|
  {
    (forall e :: e in ids ==> exists i :: 0 <= i < |specs| && specs[i].id != "" && e == next[i]) &&
    (forall i :: 0 <= i < |specs| && specs[i].id != "" ==> next[i] in ids && ids[next[i]] == specs[i].id)
  }

  lemma ReloadDistinct(entries: seq<Proxy>, specs: seq<RouteSpec>, next: seq<Proxy>)
    requires DistinctSpecs(specs) && |next| == |specs|
    requires forall i :: 0 <= i < |specs| ==> KeepsOrBuilds(entries, specs[i], next[i])
    ensures IsReload(entries, specs, next)
  {
    forall i, j | 0 <= i < j < |next|
      ensures next[i].key != next[j].key
    {
      assert specs[i].key != specs[j].key;
    }
  }

  /** A reload keeps the same object exactly for the routes whose URL, kind and
      origin survive: an old entry is in the new list if and only if a spec names it. */
  lemma ReloadKeepsExactly(entries: seq<Proxy>, specs: seq<RouteSpec>, next: seq<Proxy>, e: Proxy)
    requires IsReload(entries, specs, next) && e in entries
    ensures e in next <==> exists i :: 0 <= i < |specs| && SameRoute(e, specs[i])
  {
    if e in next {
      var i :| 0 <= i < |next| && next[i] == e;
      assert KeepsOrBuilds(entries, specs[i], next[i]);
    }
    if i :| 0 <= i < |specs| && SameRoute(e, specs[i]) {
      assert KeepsOrBuilds(entries, specs[i], next[i]);
    }
  }

  /** Another manual route currently holds the address. */
  ghost predicate HeldElsewhere(entries: seq<Proxy>, v: Views, p: Proxy, ip: Address)
    requires Viewed(entries, v)
  {
    exists e :: e in entries && e != p && e.origin == Manual && v[e].egress.lastIP != UNKNOWN &&
      v[e].egress.lastIP == ip
  }

  /** A new pair in a full map evicts; otherwise nothing is dropped. */
  ghost predicate MakesRoom(pairs: map<string, Pair>, target: string, now: int, evicted: set<string>) {
    if target !in pairs && |pairs| >= MAX_PAIRS then EvictionOf(pairs, now, evicted) else evicted == {}
  }

  // One refusal recorded in a pair map: finds or creates the entry of the
  // target, evicting from a full map first, and escalates its deadline.
  method RefusePair(pairs: map<string, Pair>, target: string, base: Duration, max: Duration, now: int)
      returns (next: map<string, Pair>, cd: Duration, ghost evicted: set<string>)
    ensures MakesRoom(pairs, target, now, evicted)
    ensures next == Refuse(pairs, target, evicted, base as int, max as int, now)
    ensures target in next && next[target].deadline == EndOf(now, cd as int)
  {
    next, evicted := pairs, {};
    if target !in pairs {
      if |pairs| >= MAX_PAIRS {
        next, evicted := EvictTargetPair(pairs, now);
      }
      next := next[target := Pair(0, 0)];
    }
    var streak := next[target].streak + 1;
    cd := SaturatingCooldown(base, max, streak);
    next := next[target := Pair(EndOf(now, cd as int), streak)];
  }

  datatype CommitResult = CommittedIP(revisit: bool) | RouteGone | Collision

  class Pool {
    const entries: seq<Proxy>
    const ids: map<Proxy, string>
    const base: Duration
    const max: Duration

    ghost predicate Valid()
      reads this, entries
    {
      DistinctRoutes(entries) && forall e :: e in entries ==> e.Valid()
    }

    ghost function RouteViews(): Views
      reads this, entries
    {
      map e | e in entries :: e.View()
    }

    constructor (entries: seq<Proxy>, ids: map<Proxy, string>, base: Duration, max: Duration)
      ensures this.entries == entries && this.ids == ids && this.base == base && this.max == max
    {
      this.entries, this.ids, this.base, this.max := entries, ids, base, max;
    }

    // ---- Picking

    method Serve(p: Proxy)
      modifies p`inFlight, p`pass
      ensures p.View() == old(p.View()).Served()
    {
      p.inFlight := p.inFlight + 1;
      p.pass := p.pass + 1;
    }

    // Index of the first candidate of least pass.
    method MinRecencyPass(candidates: seq<Proxy>) returns (k: nat)
      requires candidates != []
      ensures k < |candidates|
      ensures forall j :: 0 <= j < |candidates| ==>
        candidates[k].pass <= candidates[j].pass && (j < k ==> candidates[k].pass < candidates[j].pass)
    {
      k := 0;
      var chosenPass := candidates[0].pass;
      for i := 1 to |candidates|
        invariant k < i && chosenPass == candidates[k].pass
        invariant forall j :: 0 <= j < i ==>
          candidates[k].pass <= candidates[j].pass && (j < k ==> candidates[k].pass < candidates[j].pass)
      {
        var s := candidates[i].pass;
        if s < chosenPass {
          k, chosenPass := i, s;
        }
      }
    }

    // One fused pass over the list collects for both outcomes.
    method Scan(exclude: set<Proxy>, allow: Proxy -> bool, target: string, now: int)
        returns (avail: seq<Proxy>, fallback: Proxy?)
      requires Valid()
      ensures avail == AvailOf(entries, RouteViews(), Offered(exclude, allow), target, now)
      ensures fallback == FallbackOf(entries, RouteViews(), Offered(exclude, allow), target, now)
    {
      ghost var v, ok := RouteViews(), Offered(exclude, allow);
      avail, fallback := [], null;
      var fallbackCooldown := 0;
      for i := 0 to |entries|
        invariant avail == AvailOf(entries[..i], v, ok, target, now)
        invariant fallback == FallbackOf(entries[..i], v, ok, target, now)
        invariant fallback != null ==> fallbackCooldown == v[fallback].EffectiveCooldown(target)
      {
        var e := entries[i];
        assert entries[..i + 1][..i] == entries[..i];
        assert e in entries && e.View() == v[e];
        if allow(e) && e !in exclude {
          if e.AvailableFor(target, now) {
            avail := avail + [e];
          } else if !e.authBlocked && !e.rotating {
            var cu := e.EffectiveCooldown(target);
            if fallback == null || cu < fallbackCooldown {
              fallback, fallbackCooldown := e, cu;
            }
          }
        }
      }
      assert entries[..|entries|] == entries;
    }

    // The route a pick hands out, before it is marked as served.
    method Select(exclude: set<Proxy>, allow: Proxy -> bool, target: string, now: int) returns (r: Proxy?)
      requires Valid()
      ensures r == Pick(entries, RouteViews(), Offered(exclude, allow), target, now)
    {
      ghost var v, ok := RouteViews(), Offered(exclude, allow);
      var avail, fallback := Scan(exclude, allow, target, now);
      var k := FirstLeast(avail, v);
      FusedScanPicks(entries, v, ok, target, now, k);
      r := if avail == [] then fallback else avail[k];
    }

    // Index of the first available entry of least pass; 0 when there is none.
    method FirstLeast(avail: seq<Proxy>, ghost v: Views) returns (k: nat)
      requires v == RouteViews() && Viewed(avail, v)
      ensures avail != [] ==> k < |avail| && IsFirstLeast(v, avail, k)
    {
      k := 0;
      if avail != [] {
        k := MinRecencyPass(avail);
        assert forall j :: 0 <= j < |avail| ==> avail[j] in v && v[avail[j]].pass == avail[j].pass;
      }
    }

    method PickFor(exclude: set<Proxy>, allow: Proxy -> bool, target: string, now: int) returns (r: Proxy?)
      requires Valid()
      modifies entries`inFlight, entries`pass
      ensures r == Pick(entries, old(RouteViews()), Offered(exclude, allow), target, now)
      ensures r != null ==> r.View() == old(r.View()).Served()
      ensures forall e :: e in entries && e != r ==> e.View() == old(e.View())
    {
      r := Select(exclude, allow, target, now);
      if r != null {
        Serve(r);
        forall e | e in entries && e != r
          ensures e.View() == old(e.View())
        {
        }
      }
    }

    /** The routes of this pool a request may still be given. */
    ghost function Offered(exclude: set<Proxy>, allow: Proxy -> bool): set<Proxy> {
      set e | e in entries && allow(e) && e !in exclude
    }

    // Pushes a route one step behind the whole pool.
    method JumpToBack(p: Proxy)
      modifies p`pass
      ensures p.pass > old(p.pass) && forall e :: e in entries ==> p.pass > old(e.pass)
      ensures p.pass == old(p.pass) + 1 || exists e :: e in entries && p.pass == old(e.pass) + 1
    {
      var back := p.pass;
      for i := 0 to |entries|
        invariant back >= p.pass && forall j :: 0 <= j < i ==> back >= entries[j].pass
        invariant back == p.pass || exists e :: e in entries && back == e.pass
      {
        var passHere := entries[i].pass;
        if passHere > back {
          assert entries[i] in entries;
          back := passHere;
        }
      }
      p.pass := back + 1;
    }

    // ---- Health reports

    method ReportSuccess(p: Proxy, target: string)
      requires p.Valid()
      modifies p`consecutiveFailures, p`successes, p`cooldownUntil, p`targetCool, p`targetPairs, p`pass
      ensures p.Valid()
      ensures p.View() == old(p.View()).Succeeded(target)
    {
      p.Succeed(target);
    }

    method ReportFailure(p: Proxy, now: int) returns (cd: Duration)
      requires p.Valid()
      modifies p`consecutiveFailures, p`failures, p`cooldownUntil
      ensures p.Valid()
      ensures p.View() == old(p.View()).DialFailed(base as int, max as int, now)
      ensures p.cooldownUntil == EndOf(now, cd as int)
    {
      p.consecutiveFailures := p.consecutiveFailures + 1;
      p.failures := p.failures + 1;
      cd := SaturatingCooldown(base, max, p.consecutiveFailures);
      p.cooldownUntil := EndOf(now, cd as int);
    }

    method ReportTargetFailure(p: Proxy, target: string, now: int) returns (cd: Duration, ghost evicted: set<string>)
      requires p.Valid()
      modifies p`targetFailures, p`targetCool, p`targetPairs
      ensures p.Valid()
      ensures MakesRoom(old(p.targetCool), target, now, evicted)
      ensures p.View() == old(p.View()).TargetRefused(target, evicted, base as int, max as int, now)
    {
      p.targetFailures := p.targetFailures + 1;
      var next;
      next, cd, evicted := RefusePair(p.targetCool, target, base, max, now);
      p.targetCool := next;
      p.targetPairs := |next|;
    }

    method ReportAuthBlocked(p: Proxy)
      modifies p`authFailures, p`authBlocked
      ensures p.View() == old(p.View()).AuthFailed()
    {
      p.authFailures := p.authFailures + 1;
      p.authBlocked := true;
    }

    // ---- Rotation

    method Contains(p: Proxy) returns (b: bool)
      ensures b <==> p in entries
    {
      for i := 0 to |entries|
        invariant p !in entries[..i]
      {
        if entries[i] == p {
          return true;
        }
      }
      return false;
    }

    // `current` is the pool of the live generation, loaded inside the commit.
    method CommitRotation(current: Pool, p: Proxy, ip: Address, at: int) returns (result: CommitResult)
      requires Valid() && p.Valid()
      modifies p`rotating, p`rotationState, p`nextRetryIn, p`consecutiveSameIP,
               p`lastIP, p`lastRotationAt, p`verifiedIPs, p`rotationCount, p`ipRevisitCount
      ensures result.RouteGone? <==> current != this || p !in entries
      ensures result.Collision? <==> current == this && p in entries && HeldElsewhere(entries, old(RouteViews()), p, ip)
      ensures result.CommittedIP? ==> result.revisit == old(p.EgressView()).Revisits(ip)
      ensures p.View() == if result.CommittedIP? then old(p.View()).Committed(ip, at) else old(p.View())
    {
      if current != this {
        return RouteGone;
      }
      var here := Contains(p);
      if !here {
        return RouteGone;
      }
      var collides := HeldByAnother(p, ip);
      if collides {
        return Collision;
      }
      var revisit := p.EndRotation(ip, at);
      return CommittedIP(revisit);
    }

    method HeldByAnother(p: Proxy, ip: Address) returns (b: bool)
      requires Valid()
      ensures b <==> HeldElsewhere(entries, RouteViews(), p, ip)
    {
      ghost var v := RouteViews();
      for i := 0 to |entries|
        invariant forall j :: 0 <= j < i ==>
          !(entries[j] != p && entries[j].origin == Manual && v[entries[j]].egress.lastIP != UNKNOWN &&
            v[entries[j]].egress.lastIP == ip)
      {
        var e := entries[i];
        assert e in entries && v[e] == e.View();
        if e != p && e.origin == Manual && e.lastIP != UNKNOWN && e.lastIP == ip {
          return true;
        }
      }
      return false;
    }

    method MarkStale(p: Proxy, wait: int, run: nat)
      modifies p`rotating, p`rotationState, p`nextRetryIn, p`consecutiveSameIP, p`pass
      ensures p.View() == old(p.View()).(turn := old(p.TurnView()).ReturnedStale(wait, run), pass := p.pass)
      ensures p.pass > old(p.pass) && forall e :: e in entries ==> p.pass > old(e.pass)
      ensures p.pass == old(p.pass) + 1 || exists e :: e in entries && p.pass == old(e.pass) + 1
    {
      p.rotationState := Stale;
      p.nextRetryIn := wait;
      p.consecutiveSameIP := run;
      p.rotating := false;
      JumpToBack(p);
    }

    // The addresses every other manual route currently holds.
    method LastIPs(exclude: Proxy) returns (held: set<Address>)
      ensures forall ip :: ip in held <==> HeldElsewhere(entries, RouteViews(), exclude, ip)
    {
      held := {};
      for i := 0 to |entries|
        invariant forall ip :: ip in held <==>
          exists j :: 0 <= j < i && entries[j] != exclude && entries[j].origin == Manual &&
                      entries[j].lastIP != UNKNOWN && entries[j].lastIP == ip
      {
        var e := entries[i];
        if e != exclude && e.origin == Manual && e.lastIP != UNKNOWN {
          held := held + {e.lastIP};
        }
      }
    }

    method Lookup(key: string, kind: Kind) returns (r: Proxy?)
      ensures r != null ==> r in entries && r.key == key && r.kind == kind
      ensures r == null ==> forall e :: e in entries ==> !(e.key == key && e.kind == kind)
    {
      for i := 0 to |entries|
        invariant forall j :: 0 <= j < i ==> !(entries[j].key == key && entries[j].kind == kind)
      {
        if entries[i].key == key && entries[i].kind == kind {
          return entries[i];
        }
      }
      return null;
    }

    // ---- Reload

    method Anchor() returns (minPass: nat)
      ensures IsAnchor(entries, RouteViews(), minPass)
    {
      minPass := 0;
      for i := 0 to |entries|
        invariant i == 0 ==> minPass == 0
        invariant i > 0 ==> exists j :: 0 <= j < i && entries[j].pass == minPass
        invariant forall j :: 0 <= j < i ==> minPass <= entries[j].pass
      {
        var pass := entries[i].pass;
        if i == 0 || pass < minPass {
          minPass := pass;
        }
      }
      if entries != [] {
        var j :| 0 <= j < |entries| && entries[j].pass == minPass;
        assert entries[j] in entries;
      }
    }

    // The next generation's pool. This pool is left as it is.
    method Reconfigure(routes: seq<RouteSpec>, base: Duration, max: Duration) returns (next: Pool, ghost anchor: nat)
      requires Valid() && DistinctSpecs(routes)
      ensures fresh(next) && next.Valid() && next.base == base && next.max == max
      ensures IsAnchor(entries, RouteViews(), anchor)
      ensures IsReload(entries, routes, next.entries)
      ensures IsLabelView(routes, next.entries, next.ids)
      ensures forall e :: e in next.entries ==> e in entries || (fresh(e) && e.View() == FreshRoute(e.origin, anchor))
    {
      var minPass := Anchor();
      anchor := minPass;
      var list := KeepOrBuild(routes, minPass);
      var labels := Labels(routes, list);
      next := new Pool(list, labels, base, max);
    }

    // The routes of the next generation: kept where the route is the same, else
    // new and fresh.
    method KeepOrBuild(routes: seq<RouteSpec>, minPass: nat) returns (list: seq<Proxy>)
      requires Valid() && DistinctSpecs(routes)
      ensures IsReload(entries, routes, list) && DistinctRoutes(list) && forall e :: e in list ==> e.Valid()
      ensures forall e :: e in list ==> e in entries || (fresh(e) && e.View() == FreshRoute(e.origin, minPass))
    {
      list := [];
      for i := 0 to |routes|
        invariant |list| == i
        invariant forall j :: 0 <= j < i ==> list[j].Valid() && KeepsOrBuilds(entries, routes[j], list[j])
        invariant forall j :: 0 <= j < i ==>
          list[j] in entries || (fresh(list[j]) && list[j].View() == FreshRoute(list[j].origin, minPass))
      {
        var route := routes[i];
        var p := Kept(route);
        if p == null {
          p := new Proxy(route.key, route.kind, route.origin, route.id, minPass);
        }
        list := list + [p];
      }
      ReloadDistinct(entries, routes, list);
    }

    // The label view of a generation, built from the incoming specs.
    method Labels(routes: seq<RouteSpec>, list: seq<Proxy>) returns (labels: map<Proxy, string>)
      requires |list| == |routes| && DistinctRoutes(list)
      ensures IsLabelView(routes, list, labels)
    {
      labels := map[];
      for i := 0 to |routes|
        invariant forall e :: e in labels ==> exists j :: 0 <= j < i && routes[j].id != "" && e == list[j]
        invariant forall j :: 0 <= j < i && routes[j].id != "" ==> list[j] in labels && labels[list[j]] == routes[j].id
      {
        if routes[i].id != "" {
          labels := labels[list[i] := routes[i].id];
        }
      }
    }

    // The entry whose state a reload keeps for the spec, if there is one.
    method Kept(route: RouteSpec) returns (prior: Proxy?)
      requires Valid()
      ensures prior != null ==> prior in entries && SameRoute(prior, route)
      ensures forall e :: e in entries && SameRoute(e, route) ==> e == prior
    {
      prior := null;
      for i := 0 to |entries|
        invariant prior != null ==> prior in entries && SameRoute(prior, route)
        invariant forall j :: 0 <= j < i && SameRoute(entries[j], route) ==> entries[j] == prior
      {
        if SameRoute(entries[i], route) {
          prior := entries[i];
        }
      }
    }

    // The candidate set of a request, resolved to concrete routes; no policy
    // resolves to no restriction.
    method Scope(allowed: Option<set<string>>) returns (scope: Option<set<Proxy>>)
      ensures scope.None? <==> allowed.None?
      ensures allowed.Some? ==> forall e :: e in scope.value <==>
        e in entries && (if e in ids then ids[e] else "") in allowed.value
    {
      if allowed.None? {
        return None;
      }
      var found: set<Proxy> := {};
      for i := 0 to |entries|
        invariant forall e :: e in found <==> e in entries[..i] && (if e in ids then ids[e] else "") in allowed.value
      {
        var p := entries[i];
        if (if p in ids then ids[p] else "") in allowed.value {
          found := found + {p};
        }
      }
      assert entries[..|entries|] == entries;
      return Some(found);
    }
  }
}
