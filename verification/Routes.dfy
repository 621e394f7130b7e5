// One upstream route: its health, recency, rotation and IP-history state.
// `Route` is the state as a value, with one function per transition; `Proxy`
// is the shared mutable object, whose methods are proved against it.
module Routes {
  import opened Cooldown

  datatype Kind = V4 | V6
  datatype Origin = Auto | Manual

  // An egress address in canonical form: a parsed literal, identified by the
  // number its sixteen bytes spell, or text that is not an address literal and matches itself.
  datatype Address = Literal(number: nat) | Text(text: string)

  // "No address observed yet", the empty string of the status view.
  const UNKNOWN: Address := Text("")

  datatype RotationState = NoRotation | Idle | Draining | Rotating | Verifying | Stale
  {
    /** The phases of a running procedure. */
    predicate InProcedure() {
      Draining? || Rotating? || Verifying?
    }
  }

  // A (route, target) cooldown: its deadline (0 for none) and refusal streak.
  datatype Pair = Pair(deadline: int, streak: nat)

  // The most pair cooldowns remembered per route.
  const MAX_PAIRS: nat := 1024

  /** The pair map after one more refusal of the target, `evicted` dropped. */
  ghost function Refuse(pairs: map<string, Pair>, target: string, evicted: set<string>, base: int, max: int, now: int)
      : map<string, Pair> {
    var streak := (if target in pairs then pairs[target].streak else 0) + 1;
    (pairs - evicted)[target := Pair(EndOf(now, Saturated(base, max, streak)), streak)]
  }

  // Dial health in both cooldown scopes.
  datatype Health = Health(cooldownUntil: int, authBlocked: bool, failureStreak: nat, pairs: map<string, Pair>)
  {
    function PairDeadline(target: string): int {
      if target in pairs then pairs[target].deadline else 0
    }

    function Succeeded(target: string): Health {
      this.(failureStreak := 0, cooldownUntil := 0, pairs := pairs - {target})
    }

    ghost function Failed(base: int, max: int, now: int): Health {
      this.(failureStreak := failureStreak + 1, cooldownUntil := EndOf(now, Saturated(base, max, failureStreak + 1)))
    }

    ghost function Refused(target: string, evicted: set<string>, base: int, max: int, now: int): Health {
      this.(pairs := Refuse(pairs, target, evicted, base, max, now))
    }

    function AuthRejected(): Health {
      this.(authBlocked := true)
    }

    function Cleared(): Health {
      this.(failureStreak := 0, cooldownUntil := 0, pairs := map[])
    }
  }

  // How many outcomes of each class were reported for the route.
  datatype Tally = Tally(successes: nat, failures: nat, targetFailures: nat, authFailures: nat)
  {
    function Reports(): nat {
      successes + failures + targetFailures + authFailures
    }
  }

  // Where the route stands in its rotation lifecycle.
  datatype Turn = Turn(rotating: bool, epoch: nat, state: RotationState, nextRetryIn: int, sameIP: nat)
  {
    function Begun(phase: RotationState): Turn {
      this.(rotating := true, epoch := epoch + 1, state := phase, nextRetryIn := 0)
    }

    function InPhase(phase: RotationState): Turn {
      if rotating then this.(state := phase) else this
    }

    function Verified(): Turn {
      this.(state := Idle, nextRetryIn := 0, sameIP := 0, rotating := false)
    }

    function ReturnedStale(wait: int, run: nat): Turn {
      this.(state := Stale, nextRetryIn := wait, sameIP := run, rotating := false)
    }

    function Abandoned(): Turn {
      this.(state := if !state.InProcedure() then state else if sameIP > 0 then Stale else Idle,
            nextRetryIn := 0, rotating := false)
    }
  }

  // The verified egress addresses of the route.
  datatype Egress =
    Egress(lastIP: Address, lastRotationAt: int, verified: set<nat>, rotationCount: nat, revisitCount: nat)
  {
    /** Whether committing the address returns to one this route already verified. */
    predicate Revisits(ip: Address) {
      ip.Literal? && ip.number in verified
    }

    /** The address history with one more verified address. */
    function Remember(ip: Address): set<nat> {
      if ip.Literal? then verified + {ip.number} else verified
    }

    function Committed(ip: Address, at: int): Egress {
      Egress(ip, at, Remember(ip), rotationCount + 1, if Revisits(ip) then revisitCount + 1 else revisitCount)
    }

    function Baselined(ip: Address): Egress {
      if lastIP != UNKNOWN then this else this.(lastIP := ip, verified := Remember(ip))
    }
  }

  datatype Route = Route(pass: nat, inFlight: int, health: Health, tally: Tally, turn: Turn, egress: Egress)
  {
    // ---- Eligibility

    predicate AvailableAt(now: int) {
      MayRecover() && (health.cooldownUntil == 0 || now >= health.cooldownUntil)
    }

    predicate AvailableFor(target: string, now: int) {
      AvailableAt(now) && (health.PairDeadline(target) == 0 || now >= health.PairDeadline(target))
    }

    /** When both scopes have lifted for the target; 0 when neither cools. */
    function EffectiveCooldown(target: string): int {
      var pair := health.PairDeadline(target);
      if pair != 0 && (health.cooldownUntil == 0 || pair > health.cooldownUntil) then pair else health.cooldownUntil
    }

    /** May be handed out although it is cooling. */
    predicate MayRecover() {
      !health.authBlocked && !turn.rotating
    }

    // ---- Transitions

    function Served(): Route {
      this.(inFlight := inFlight + 1, pass := pass + 1)
    }

    function Released(): Route {
      this.(inFlight := if inFlight <= 0 then inFlight else inFlight - 1)
    }

    function Succeeded(target: string): Route {
      this.(health := health.Succeeded(target), tally := tally.(successes := tally.successes + 1), pass := pass + 1)
    }

    ghost function DialFailed(base: int, max: int, now: int): Route {
      this.(health := health.Failed(base, max, now), tally := tally.(failures := tally.failures + 1))
    }

    ghost function TargetRefused(target: string, evicted: set<string>, base: int, max: int, now: int): Route {
      this.(health := health.Refused(target, evicted, base, max, now),
            tally := tally.(targetFailures := tally.targetFailures + 1))
    }

    function AuthFailed(): Route {
      this.(health := health.AuthRejected(), tally := tally.(authFailures := tally.authFailures + 1))
    }

    function Committed(ip: Address, at: int): Route {
      this.(turn := turn.Verified(), egress := egress.Committed(ip, at))
    }
  }

  /** A route as a reload or the first load creates it. */
  function FreshRoute(origin: Origin, anchor: nat): Route {
    Route(anchor, 0,
          Health(0, false, 0, map[]),
          Tally(0, 0, 0, 0),
          Turn(false, 0, if origin == Manual then Idle else NoRotation, 0, 0),
          Egress(UNKNOWN, 0, {}, 0, 0))
  }

  // ---- Properties of eligibility

  /** The effective deadline is exactly when a route that is neither blocked nor
      rotating can serve the target: from then on it can, before then it cannot. */
  lemma EffectiveCooldownExact(r: Route, target: string, now: int)
    requires r.MayRecover()
    ensures r.AvailableFor(target, now) <==> r.EffectiveCooldown(target) == 0 || now >= r.EffectiveCooldown(target)
  {
  }

  // ---- Pair-cooldown eviction

  predicate Expired(pairs: map<string, Pair>, key: string, now: int)
    requires key in pairs
  {
    pairs[key].deadline != 0 && now >= pairs[key].deadline
  }

  /** No entry that has not expired recovers sooner than `key`. */
  ghost predicate Soonest(pairs: map<string, Pair>, key: string)
    requires key in pairs
  {
    forall k :: k in pairs ==> pairs[key].deadline <= pairs[k].deadline
  }

  /** What making room in a full map may drop: one expired entry if there is
      any, else one that recovers soonest. Nothing only when nothing has expired
      and the soonest entry cannot be named: it belongs to the empty key, or
      every deadline is the largest representable one. */
  ghost predicate EvictionOf(pairs: map<string, Pair>, now: int, evicted: set<string>)
  {
    if exists k :: k in pairs && Expired(pairs, k, now) then
      exists k :: k in pairs && Expired(pairs, k, now) && evicted == {k}
    else if evicted == {} then
      ("" in pairs && Soonest(pairs, "")) || (forall k :: k in pairs ==> pairs[k].deadline >= MAX_INT64)
    else
      exists k :: k in pairs && k != "" && Soonest(pairs, k) && evicted == {k}
  }

  // Map iteration order is arbitrary, as in the source.
  method EvictTargetPair(pairs: map<string, Pair>, now: int)
      returns (rest: map<string, Pair>, ghost evicted: set<string>)
    ensures EvictionOf(pairs, now, evicted)
    ensures evicted <= pairs.Keys && rest == pairs - evicted && evicted == pairs.Keys - rest.Keys
    ensures EvictionOf(pairs, now, pairs.Keys - rest.Keys)
  {
    var soonestKey := "";
    var soonest := MAX_INT64;
    var todo := pairs.Keys;
    while todo != {}
      invariant todo <= pairs.Keys
      invariant forall k :: k in pairs && k !in todo ==> !Expired(pairs, k, now) && soonest <= pairs[k].deadline
      invariant soonest <= MAX_INT64
      invariant if soonestKey in pairs - todo && pairs[soonestKey].deadline == soonest then true
                else soonestKey == "" && soonest == MAX_INT64
      decreases todo
    {
      var k :| k in todo;
      todo := todo - {k};
      var d := pairs[k].deadline;
      if d != 0 && now >= d {
        assert Expired(pairs, k, now);
        return pairs - {k}, {k};
      }
      if d < soonest {
        soonest, soonestKey := d, k;
      }
    }
    if soonestKey != "" {
      assert Soonest(pairs, soonestKey);
      return pairs - {soonestKey}, {soonestKey};
    }
    return pairs, {};
  }

  /** With named targets and representable deadlines, eviction always makes room. */
  lemma EvictionMakesRoom(pairs: map<string, Pair>, now: int, evicted: set<string>)
    requires EvictionOf(pairs, now, evicted) && pairs != map[]
    requires "" !in pairs && exists k :: k in pairs && pairs[k].deadline < MAX_INT64
    ensures |pairs - evicted| == |pairs| - 1
  {
    var k :| k in pairs && evicted == {k};
    assert (pairs - {k}).Keys == pairs.Keys - {k};
  }

  // ---- The shared object

  class Proxy {
    const key: string      // canonical URL
    const kind: Kind
    const origin: Origin
    const id: string       // routing label at birth, "" when unnamed

    var pass: nat
    var inFlight: int
    var cooldownUntil: int
    var authBlocked: bool
    var rotating: bool
    var rotationEpoch: nat
    var targetCool: map<string, Pair>
    var targetPairs: nat
    var consecutiveFailures: nat
    var successes: nat
    var failures: nat
    var targetFailures: nat
    var authFailures: nat
    var rotationState: RotationState
    var lastIP: Address
    var lastRotationAt: int
    var nextRetryIn: int
    var consecutiveSameIP: nat
    var rotationCount: nat
    var ipRevisitCount: nat
    var verifiedIPs: set<nat>

    ghost function HealthView(): Health
      reads `cooldownUntil, `authBlocked, `consecutiveFailures, `targetCool
    {
      Health(cooldownUntil, authBlocked, consecutiveFailures, targetCool)
    }

    ghost function TallyView(): Tally
      reads `successes, `failures, `targetFailures, `authFailures
    {
      Tally(successes, failures, targetFailures, authFailures)
    }

    ghost function TurnView(): Turn
      reads `rotating, `rotationEpoch, `rotationState, `nextRetryIn, `consecutiveSameIP
    {
      Turn(rotating, rotationEpoch, rotationState, nextRetryIn, consecutiveSameIP)
    }

    ghost function EgressView(): Egress
      reads `lastIP, `lastRotationAt, `verifiedIPs, `rotationCount, `ipRevisitCount
    {
      Egress(lastIP, lastRotationAt, verifiedIPs, rotationCount, ipRevisitCount)
    }

    ghost function View(): Route
      reads this
    {
      Route(pass, inFlight, HealthView(), TallyView(), TurnView(), EgressView())
    }

    /** The lookup gate always equals the size of the pair map. */
    ghost predicate Valid()
      reads `targetPairs, `targetCool
    {
      targetPairs == |targetCool.Keys|
    }

    constructor (key: string, kind: Kind, origin: Origin, id: string, anchor: nat)
      ensures Valid()
      ensures View() == FreshRoute(origin, anchor)
      ensures this.key == key && this.kind == kind && this.origin == origin && this.id == id
    {
      this.key, this.kind, this.origin, this.id := key, kind, origin, id;
      pass, inFlight, cooldownUntil, authBlocked, rotating, rotationEpoch := anchor, 0, 0, false, false, 0;
      targetCool, targetPairs := map[], 0;
      consecutiveFailures, successes, failures, targetFailures, authFailures := 0, 0, 0, 0, 0;
      rotationState := if origin == Manual then Idle else NoRotation;
      lastIP, lastRotationAt, nextRetryIn, consecutiveSameIP := UNKNOWN, 0, 0, 0;
      rotationCount, ipRevisitCount, verifiedIPs := 0, 0, {};
    }

    /** The gated lookup of the pick path finds exactly what the map holds. */
    function PairDeadline(target: string): (d: int)
      requires Valid()
      reads this
      ensures d == HealthView().PairDeadline(target)
    {
      if targetPairs == 0 then
        assert targetCool == map[];
        0
      else if target in targetCool then targetCool[target].deadline else 0
    }

    predicate AvailableFor(target: string, now: int)
      requires Valid()
      reads this
      ensures AvailableFor(target, now) == View().AvailableFor(target, now)
    {
      !authBlocked && !rotating && (cooldownUntil == 0 || now >= cooldownUntil) &&
      (PairDeadline(target) == 0 || now >= PairDeadline(target))
    }

    function EffectiveCooldown(target: string): (d: int)
      requires Valid()
      reads this
      ensures d == View().EffectiveCooldown(target)
    {
      var pair := PairDeadline(target);
      if pair != 0 && (cooldownUntil == 0 || pair > cooldownUntil) then pair else cooldownUntil
    }

    method Release()
      requires Valid()
      modifies this`inFlight
      ensures Valid()
      ensures View() == old(View()).Released()
    {
      if inFlight <= 0 {
        return;
      }
      inFlight := inFlight - 1;
    }

    method ClearFailures(target: string)
      requires Valid()
      modifies this`consecutiveFailures, this`cooldownUntil, this`targetCool, this`targetPairs
      ensures Valid() && HealthView() == old(HealthView()).Succeeded(target)
    {
      consecutiveFailures := 0;
      cooldownUntil := 0;
      ClearTargetCooldown(target);
    }

    method Succeed(target: string)
      requires Valid()
      modifies this`consecutiveFailures, this`cooldownUntil, this`targetCool, this`targetPairs
      modifies this`successes, this`pass
      ensures Valid() && View() == old(View()).Succeeded(target)
    {
      ClearFailures(target);
      assert View() == old(View()).(health := old(HealthView()).Succeeded(target));
      successes := successes + 1;
      pass := pass + 1;
    }

    method ClearTargetCooldown(target: string)
      requires Valid()
      modifies this`targetCool, this`targetPairs
      ensures Valid() && targetCool == old(targetCool) - {target}
    {
      if targetPairs == 0 {
        assert targetCool == map[];
        return;
      }
      if target in targetCool {
        targetCool := targetCool - {target};
        targetPairs := |targetCool|;
      }
    }

    method ClearAllTargetCooldowns()
      requires Valid()
      modifies this`targetCool, this`targetPairs
      ensures Valid() && targetCool == map[]
    {
      if targetPairs == 0 {
        return;
      }
      targetCool := map[];
      targetPairs := 0;
    }

    method BeginRotation(phase: RotationState)
      modifies this`rotating, this`rotationEpoch, this`rotationState, this`nextRetryIn
      ensures View() == old(View()).(turn := old(TurnView()).Begun(phase))
    {
      rotating := true;
      rotationEpoch := rotationEpoch + 1;
      rotationState := phase;
      nextRetryIn := 0;
    }

    method SetRotationPhase(phase: RotationState)
      modifies this`rotationState
      ensures View() == old(View()).(turn := old(TurnView()).InPhase(phase))
    {
      if rotating {
        rotationState := phase;
      }
    }

    /** The record of a commit: the address, its time, the history and the counters. */
    method RecordVerifiedIP(ip: Address, at: int) returns (revisit: bool)
      modifies this`lastIP, this`lastRotationAt, this`verifiedIPs, this`rotationCount, this`ipRevisitCount
      ensures EgressView() == old(EgressView()).Committed(ip, at)
      ensures revisit == old(EgressView()).Revisits(ip)
    {
      revisit := ip.Literal? && ip.number in verifiedIPs;
      lastIP := ip;
      lastRotationAt := at;
      if ip.Literal? {
        verifiedIPs := verifiedIPs + {ip.number};
      }
      rotationCount := rotationCount + 1;
      if revisit {
        ipRevisitCount := ipRevisitCount + 1;
      }
    }

    method EndRotation(ip: Address, at: int) returns (revisit: bool)
      modifies this`rotating, this`rotationState, this`nextRetryIn, this`consecutiveSameIP,
               this`lastIP, this`lastRotationAt, this`verifiedIPs, this`rotationCount, this`ipRevisitCount
      ensures View() == old(View()).Committed(ip, at)
      ensures revisit == old(EgressView()).Revisits(ip)
    {
      revisit := RecordVerifiedIP(ip, at);
      ReturnVerified();
    }

    method ReturnVerified()
      modifies this`rotating, this`rotationState, this`nextRetryIn, this`consecutiveSameIP
      ensures TurnView() == old(TurnView()).Verified()
    {
      rotationState := Idle;
      nextRetryIn := 0;
      consecutiveSameIP := 0;
      rotating := false;
    }

    method MarkRotated()
      requires Valid()
      modifies this`consecutiveFailures, this`cooldownUntil, this`targetCool, this`targetPairs
      ensures Valid()
      ensures View() == old(View()).(health := old(HealthView()).Cleared())
    {
      consecutiveFailures := 0;
      cooldownUntil := 0;
      ClearAllTargetCooldowns();
    }

    method AbandonRotation()
      modifies this`rotating, this`rotationState, this`nextRetryIn
      ensures View() == old(View()).(turn := old(TurnView()).Abandoned())
    {
      if rotationState.InProcedure() {
        if consecutiveSameIP > 0 {
          rotationState := Stale;
        } else {
          rotationState := Idle;
        }
      }
      nextRetryIn := 0;
      rotating := false;
    }

    method SetBaselineIP(ip: Address)
      modifies this`lastIP, this`verifiedIPs
      ensures EgressView() == old(EgressView()).Baselined(ip)
    {
      if lastIP == UNKNOWN {
        lastIP := ip;
        if ip.Literal? {
          verifiedIPs := verifiedIPs + {ip.number};
        }
      }
    }
  }
}
