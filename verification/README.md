# Rotation proxy gateway: a verified model

The gateway sends each tunnel out through one of many SOCKS5 routes. A route pool picks the route, a
rotation engine takes routes out of service to change their egress address, a warm pool parks
half-dialled connections ahead of use, and reloads replace the configuration under all three. This
project models that shared state and proves what holds over every run of it, and proves the
self-contained algorithms beside it: routing policy, handshake and stream framing, backoff arithmetic,
and the sanitizer of diagnostics.

Two kinds of file work together. *Runs* are state machines on values: a world, an event, a step, and
theorems over every sequence of enabled steps. *Classes* follow the program: objects with fields, methods
that change them in place, loops with invariants. Each class method is proved to be a step (or a function)
of its state machine, and a ghost run on the object records the steps taken, so what is proved of every run
holds of every use of the object.

| file | models |
|---|---|
| `Routes.dfy`, `RoutePool.dfy` | one route; picking, reporting, committing, reloading |
| `RouteRuns.dfy`, `RouteSafety.dfy` | the shared route state as events; what every run keeps |
| `Generations.dfy` | the published generation; the run, with who did which step |
| `Scheduling.dfy`, `Procedures.dfy`, `BootProbes.dfy` | slots of the rotation engine; one procedure among everything else; the check at boot |
| `Tunnel.dfy` | the attempt chain of one session among others |
| `WarmBuckets.dfy`, `WarmSafety.dfy`, `WarmRuns.dfy` | the warm pool as events; what every run keeps |
| `WarmPools.dfy`, `WarmDial.dfy`, `RotationStart.dfy` | the warm pool itself; dialling through it and for it; where both runs meet |
| `Routing.dfy` | the compiler of domain patterns and the matcher |
| `Handshake.dfy`, `Streams.dfy` | SOCKS5 stages, the inbound header, buffered readers and prefixes |
| `Cooldown.dfy` | saturating cooldowns, jitter and retry waits |
| `Sanitizing.dfy` | redaction, control stripping and bounding of diagnostics |

## What a step is

- One critical section, or one method body, is one step. Goroutines, channels and timers are gone: any
  interleaving of steps is a run.
- A commit through the live pool is one step with respect to publishing
  (`internal/rotation/engine.go:341`, `internal/pool/rotation.go:133-163`). Publishing takes no pool lock
  (`internal/pool/generation.go:81-89`), so this is an assumption.
- A pick is one step with respect to the begin of a rotation. The rotating flag is an atomic outside the
  pool's lock (`internal/pool/pool.go:584-629`), so this is an assumption too.
- One evaluation of the engine, its decision and the abandons it makes, is one step.
- The end of an attempt that did not change the address (count, stale mark, due time) is one step
  (`internal/rotation/engine.go:377-388`). The end of one that did is several, with everything else between.
- Between two steps of a procedure or a session, everything else runs: the methods named `Others` stand
  for it. Callers know only their contract; `Procedures.ForeignRun` and `Tunnel.OthersRun` prove it of every
  run of other agents' steps.
- Time is an integer handed in by the caller, and cooldowns end at the latest at the last 64-bit instant. Pass
  counters and rotation epochs are naturals.
- Identity keys, canonical addresses and parsed literals are values with equality. The random jitter
  factor, probe answers, dial outcomes and read sizes are arbitrary.
- A socket may fail at any read or write; a ghost flag on it says whether it has. Without a failure the
  handshake and the inbound header succeed exactly when the peer's bytes say so.
- A connection that is closed is recorded in a set of closed connections. Ids of claims, agents and
  procedures are labels of the model, so that runs can name them.

## Where the code and its words differ

- The pair-cooldown map is said to be capped (`internal/pool/pool.go:753-754`). The cap fails: the settings
  allow a cooldown that ends at the last instant of the 64-bit clock, the eviction then names no entry, and
  named targets fill the map to any size (`RouteSafety.CapFails`). It holds exactly when room can be made,
  which the map and the time decide (`RouteSafety.FullMapStaysFull`). The empty key, which the eviction cannot
  name either, does not occur: a target is a joined host and port (`internal/socksdial/socksdial.go:159-161`).
- The sanitizer's fast path is said to skip only work that changes nothing
  (`internal/sanitize/sanitize.go:26-29`). It does so exactly on valid UTF-8
  (`Sanitizing.FastPathExact`), and not on one byte that starts no rune (`Sanitizing.FastPathDiffers`).
- Userinfo is said to be replaced (`internal/sanitize/sanitize.go:56-61`). It is replaced whole exactly when it
  is part of one token; a blank, quote, angle bracket or control in it ends the token
  (`Sanitizing.UrlRedactedExactly`, `Sanitizing.BareRedactedExactly`).

## Model

| member | source | states |
|---|---|---|
| WarmRuns.OneOwner | internal/warmpool/warmpool.go:222-604 | In every reachable state each half connection a dial returned is in exactly one place: in the hands of the one worker that dialled it, parked at one position of one bucket in the map, lent once, or closed |
| WarmRuns.LeavesForGood | internal/warmpool/warmpool.go:529-604 | A connection once lent or closed stays so over every run: it is never parked or lent again |
| WarmRuns.StoppedForGood | internal/warmpool/warmpool.go:585-604 | After stop nothing is ever parked again and nothing more is lent, whatever dials still come back |
| WarmRuns.ReservationsConserved | internal/warmpool/warmpool.go:432-521 | Over every run the dials in the air, summed over all buckets, dropped ones included, are exactly the claims not yet finished; no reservation is negative |
| WarmRuns.BoundsHold | internal/warmpool/warmpool.go:290-316 | Under every configuration within a ceiling: ready, pending and flying together never pass the idle minimum, ready the idle maximum, flying the per-route cap, all idle the total cap |
| WarmRuns.RotationIsolation | internal/warmpool/warmpool.go:500-557 | A borrowed connection was dialled for that very route by a claim of the run, and no rotation of the route began between the claim and the borrow |
| WarmRuns.SweepLeavesCurrent | internal/warmpool/warmpool.go:235-289 | What a sweep leaves parked is of a live route, of its current epoch, unexpired and within the idle maximum |
| WarmSafety.StepKeeps | internal/warmpool/warmpool.go:222-604 | Every step of the warm pool keeps the invariant the run theorems rest on |
| WarmSafety.RetainedIsFilter | internal/warmpool/warmpool.go:252-269 | The in-place filter keeps, in order, exactly the connections of the current epoch that have not expired |
| WarmPools.WarmPool.Sweep | internal/warmpool/warmpool.go:222-316 | The sweep over the real buckets is one sweep step of the run, for the given routes, configuration and time |
| WarmPools.WarmPool.ClaimTask | internal/warmpool/warmpool.go:432-465 | A claim is one step, only under the concurrency limit, and none is found exactly when no route may be claimed for |
| WarmPools.WarmPool.CompleteDial | internal/warmpool/warmpool.go:498-521 | A returned dial is parked or closed as the step says, late ones included |
| WarmPools.WarmPool.FailDial | internal/warmpool/warmpool.go:481-496 | A failed dial frees its reservation and sets a backoff within a tenth of the doubling base |
| WarmPools.WarmPool.Borrow | internal/warmpool/warmpool.go:529-558 | Lends the oldest parked connection of the route exactly when its stamp is current and the pool runs; a stale one is closed |
| WarmPools.WarmPool.DiscardRoute | internal/warmpool/warmpool.go:564-576 | One discard step; the route parks nothing afterwards |
| WarmPools.WarmPool.Stop | internal/warmpool/warmpool.go:585-604 | One stop step: everything parked is closed and nothing is pending |
| WarmPools.WarmBackoff | internal/warmpool/warmpool.go:676-692 | The wait after a streak of failures is within a tenth of the doubling base, whatever the jitter |
| WarmDial.TryWarm | internal/proxyserver/server.go:318-333 | One borrow, and the lent connection is consumed; unless its socket fails, the status is success or refusal exactly when the endpoint's bytes accept or refuse, and the tunnel handed out reads exactly what follows the reply |
| WarmDial.DialWarmFirst | internal/proxyserver/server.go:318-341 | The lent connection settles the attempt exactly when it connects or the target is refused, as the endpoint's bytes say; otherwise its siblings are discarded and the cold dial decides |
| WarmDial.RunDial | internal/warmpool/warmpool.go:474-521 | A worker's dial is a return and a completion of its claim, or a failure that counts against authentication exactly when the endpoint rejects the credentials |
| WarmPools.PoolInvariants | internal/warmpool/warmpool.go:222-604 | Every pool, whatever was done to it, has one owner per connection, conserved reservations, the bounds of any ceiling on its configurations, and isolated borrows |
| RotationStart.Begin | internal/pool/rotation.go:25-32 | The begin of a rotation by a procedure is one step of the route state and one rotation of the warm pool; both invariants hold after it |
| RoutePool.Pool.PickFor | internal/pool/pool.go:584-629 | Returns the pick of the two-scan specification, holds that route and advances its pass, and changes no other route |
| RoutePool.Pool.Scan | internal/pool/pool.go:584-629 | One pass finds the routes available for the target, in order, and the soonest to recover |
| RoutePool.FusedScanPicks | internal/pool/pool.go:540-629 | The fused pass refines the specification: the first of least pass among the available, else the fallback |
| RoutePool.PickIsUnique | internal/pool/pool.go:584-629 | The specification (least pass, first listed; else the least recovery time; none exactly when neither exists) determines the pick |
| RoutePool.Pool.Reconfigure | internal/pool/pool.go:462-500 | The new pool lists the routes of the new configuration, the surviving objects themselves and fresh ones at the least pass, with the new labels; the old pool is untouched |
| RoutePool.ReloadKeepsExactly | internal/pool/pool.go:462-526 | A route object survives a reload exactly when its key, kind and origin are configured again |
| RoutePool.Pool.CommitRotation | internal/pool/rotation.go:133-163 | Commits exactly when the pool is live, lists the route, and no other manual route holds the address; a refusal changes nothing and says why |
| RoutePool.Pool.MarkStale | internal/pool/rotation.go:170-178 | The route serves again, marked stale, one behind every route of the pool |
| RoutePool.Pool.LastIPs | internal/pool/rotation.go:220-235 | Exactly the addresses other manual routes hold |
| RoutePool.Pool.Scope | internal/pool/pool.go:511-522 | Exactly the routes whose label the policy allows; no restriction stays none |
| RoutePool.RefusePair | internal/pool/pool.go:756-783 | The refused pair is always recorded, with its saturated cooldown, after room is made as the cap demands |
| Routes.EvictTargetPair | internal/pool/pool.go:790-806 | Drops one expired entry if there is any, else one of least deadline, and nothing else |
| Routes.EvictionMakesRoom | internal/pool/pool.go:790-806 | The eviction drops exactly one entry of a map with named targets and ending deadlines |
| Routes.EffectiveCooldownExact | internal/pool/pool.go:242-278 | The effective deadline is exactly the first instant at which route and pair both permit the target |
| Routes.Proxy.EndRotation | internal/pool/rotation.go:71-93 | Records a commit, its count and history, and says whether the address was verified before |
| Routes.Proxy.AbandonRotation | internal/pool/rotation.go:199-212 | Clears a shown phase to stale or idle by the unchanged count, and touches nothing else |
| RouteSafety.GenerationsFrozen | internal/pool/generation.go:57-89 | Published generations never change: a scope resolved before any chain of publishes denotes the same routes |
| RouteSafety.GoneForGood | internal/pool/pool.go:462-500 | A route object absent from the live list never returns to it |
| RouteSafety.TurnsStayConsistent | internal/pool/rotation.go:25-93 | Over every run a manual route is rotating exactly when its phase is one of a procedure, and otherwise stale exactly when its unchanged count is positive |
| RouteSafety.LatePhaseInert | internal/pool/rotation.go:41-47 | A phase written after the rotation ended changes nothing |
| RouteSafety.DrainSafety | internal/pool/pool.go:601-628 | From the begin of a rotation to its end no hold is added, so what has drained stays drained |
| RouteSafety.EgressStaysExclusive | internal/pool/rotation.go:71-264 | Over every run of commits, baselines and publishes two live manual routes share an address only if one of them has it from a baseline and has not committed since |
| RouteSafety.RefusedCommitInert | internal/pool/rotation.go:133-163 | A refused commit changes nothing on any route |
| RouteSafety.HistoriesStayConserved | internal/pool/rotation.go:71-93 | For address literals: verified addresses number the rotations less the revisits, plus one if a baseline took effect, and the last address is among them |
| RouteSafety.TotalsStayAgreed | internal/rotation/engine.go:341-364 | The engine's totals are the sums over all routes that ever existed whenever no procedure is between its commit and its count |
| RouteSafety.PairsStayCapped | internal/pool/pool.go:756-806 | Over every run whose refusals find room, the pair map of every route stays within its cap |
| RouteSafety.PairsStayBounded | internal/pool/pool.go:756-806 | They do while targets are named and cooldowns end before the last instant of the clock |
| RouteSafety.FullMapStaysFull | internal/pool/pool.go:756-806 | A full map stays at its cap whatever is evicted if and only if some entry has expired, or the soonest to end is a named target whose deadline is not the last instant; otherwise it grows past the cap |
| RouteSafety.NamedRoom | internal/pool/pool.go:790-806 | With named targets room fails exactly when every deadline is the last instant |
| RouteSafety.CapFails | internal/pool/pool.go:770-806 | A run that fails the cap: refusals of different named targets under the longest cooldown fill a map to any size |
| RouteSafety.StarvationBound | internal/pool/pool.go:533-629 | A route that is not pushed back is passed over, at picks it is eligible for, at most as often as the other routes are behind it |
| RouteSafety.LevelDebt | internal/pool/pool.go:533-629 | Among routes of one pass that bound is the number of routes listed before it: the service is round robin |
| Generations.Store.Publish | internal/pool/generation.go:81-89 | One publish step: the reloaded pool becomes the live generation |
| Generations.StoreInvariants | internal/pool/generation.go:50-89 | Every store that began at boot has consistent turns, exclusive addresses and agreed totals, and conserved histories and bounded pair maps under their conditions |
| Scheduling.CapMeaning | internal/config/runtime.go:128-146 | The effective cap is the lesser of the fixed number and the routes, or the share of the routes rounded up |
| Scheduling.StaysUnbroken | internal/pool/generation.go:81-89 | Over every run a route object is listed by an unbroken stretch of generations |
| Scheduling.StoreUnbroken | internal/pool/generation.go:50-89 | So it is in every store that began at boot, as an evaluation needs |
| Scheduling.Engine.Decide | internal/rotation/engine.go:170-230 | New routes are due at once, removed ones lose due time, count and slot; every due and listed route up to where the cap stopped gets a slot, and no other |
| Scheduling.Engine.Evaluate | internal/rotation/engine.go:170-230 | The slots never pass the cap, or the kept slots if those are more; exactly the removed routes are abandoned; no route has two procedures; a new procedure's route is in service |
| Scheduling.Engine.FinishProcedure | internal/rotation/engine.go:500-510 | A procedure frees its own slot and never its replacement's |
| Scheduling.Engine.AbortAll | internal/rotation/engine.go:532-539 | Every active route is abandoned and no slot remains |
| Scheduling.AdmittedIdle | internal/rotation/engine.go:204-230 | When routes are out of service only for running procedures, a procedure admitted for another route finds it in service |
| BootProbes.BootPrecheck | internal/rotation/engine.go:140-167 | The check at boot records at most one baseline per configured route, each a probed literal address |
| BootProbes.TakeBaseline | internal/pool/rotation.go:253-264 | One baseline step: a known address is never overwritten, and no other route changes |
| Procedures.ForeignRun | internal/pool/rotation.go:25-212 | Steps of everything else record no rotation on the procedure's route, add no hold, and at most abandon it |
| Procedures.Drain | internal/rotation/engine.go:270-295 | Leaving the drain without a timeout, the route has no holds |
| Procedures.CommitIP | internal/rotation/engine.go:326-368 | A done commit is recorded, cleared and counted in this order, and the next rotation is due one interval after that; any other outcome records nothing |
| Procedures.Verify | internal/rotation/engine.go:425-492 | A change is reported only for a committed address that differs from the baseline, or from the last verified address when there is none |
| Procedures.KeepAddress | internal/rotation/engine.go:377-397 | The unchanged count grows by one, the wait follows from it, and the route shows and the engine schedules exactly this wait |
| Procedures.RunProcedure | internal/rotation/engine.go:232-398 | On every path at most one of a commit and a stale mark is recorded, the slot is given back, and the route is in service again |
| Tunnel.ServeTunnel | internal/proxyserver/http.go:663-803 | The session's part of the shared run is exactly its chain: each attempt a pick among the routes not tried, at most one report that fits the outcome, and one release; it ends holding nothing, and only with a tunnel, a setup failure, the deadline passed, the retries used up, or nothing left to pick |
| Tunnel.NothingLeftMeaning | internal/proxyserver/http.go:704-707 | Nothing is left exactly when every allowed route not tried is unavailable and blocked or out of service |
| Tunnel.OthersRun | internal/proxyserver/http.go:663-803 | Steps of other sessions that release only what they hold keep every hold accounted for and leave this session's holds and log alone |
| Tunnel.HoldsStayMatched | internal/pool/pool.go:533-695 | Over any number of sessions the in-flight count of every route is the number of outstanding holds |
| Tunnel.ReleaseNeverClamped | internal/pool/pool.go:685-695 | A release by a holder always finds a hold: the guard never decides anything |
| Tunnel.NothingLeaks | internal/proxyserver/http.go:663-803 | When no agent holds anything, no route is in flight |
| Tunnel.ChainWithinAllowed | internal/proxyserver/http.go:684-760 | A chain has no more attempts than there are allowed routes |
| Tunnel.ReplyMeaning | internal/proxyserver/http.go:684-803 | A tunnel exactly when the last dial connected; 502 only for a setup failure or behind the deadline; 503 as exhausted exactly when the retries are used up, before the deadline, and else for want of a route |
| Tunnel.ComposedIsIntersection | internal/proxyserver/http.go:479-502 | The composed filter is the intersection of routing candidates, listener kind and request family, and there is none exactly when nothing constrains |
| Routing.CompilingPreservesMeaning | internal/routing/routing.go:255-289 | For every accepted policy and every target, comparing strings gives the routes of the first rule matching by labels, else the defaults |
| Routing.DottedSuffixIsLabelSuffix | internal/routing/routing.go:255-289 | The dotted suffix test is exactly a proper label suffix: no part of a label, never the bare domain |
| Routing.CompilePatternMeaning | internal/routing/routing.go:166-183 | A pattern compiles exactly when it is valid, to a test of what it means on labels |
| Routing.Compile | internal/routing/routing.go:113-158 | A policy compiles exactly when it is valid, and every rule holds exactly the tests of its patterns |
| Routing.ValidateHostname | internal/routing/routing.go:191-223 | The walk in place accepts exactly the hostnames whose labels are all valid |
| Routing.MatchIgnoresCaseAndDot | internal/routing/routing.go:228-289 | Letter case and one trailing dot of the target make no difference |
| Handshake.SocksConnectRequest | internal/socksdial/socksdial.go:239-272 | Encodes exactly the targets that can be encoded |
| Handshake.EncodeDecode | internal/socksdial/socksdial.go:239-272 | A reader of section 4 of RFC 1928 gets the target back from the request, and what follows it untouched |
| Handshake.HalfConn.Negotiate | internal/socksdial/halfconn.go:108-170 | Unless the socket fails: success exactly when the frames accept, having consumed exactly the method choice and the reply to the credentials, and rejection exactly when they reject |
| Handshake.HalfConn.CompleteConnect | internal/socksdial/halfconn.go:182-226 | Consumes the half connection once; unless the socket fails, succeeds exactly on an accepting reply, handing out exactly the bytes behind it, and reports a refusal exactly on a well-formed non-zero reply |
| Handshake.Dial | internal/socksdial/socksdial.go:195-201 | Over both stages the tunnel reads the endpoint's stream without exactly the method, auth and reply frames, exactly these requests were sent, and every outcome is what the frames say unless the socket fails |
| Handshake.ReadHTTPHeader | internal/proxyserver/http.go:200-215 | The header is the shortest prefix ending in the empty line, found exactly when the stream has one within the limit unless the socket fails, and the rest stays in the stream |
| Handshake.AcceptConnect | internal/proxyserver/http.go:643-650 | Header and tunnel together are exactly the client's stream, whenever it has a header |
| Streams.Reader.ReadFull | internal/socksdial/socksdial.go:274-292 | Takes exactly the asked bytes off the front of the stream, however they arrive |
| Streams.Reader.ReadSlice | internal/proxyserver/http.go:200-215 | Takes bytes through the first delimiter, or a full buffer |
| Streams.PrefixConn.Read | internal/proxyserver/relay.go:86-93 | Serves the bytes read ahead first and then the socket, for every read size |
| Streams.PrefixConn.ReadAll | internal/socksdial/socksdial.go:313-320 | Over any sequence of reads no byte is lost, repeated or reordered |
| Streams.PrefixConn.CopyTo | internal/proxyserver/relay.go:51-75 | The client gets a prefix of the stream, counted exactly, and the whole of it unless a socket fails |
| Cooldown.SaturatingCooldown | internal/pool/pool.go:813-838 | The doubling loop gives the least of the maximum and base times two to the failures less one, with no overflow on the way |
| Cooldown.SaturatedMonotone | internal/pool/pool.go:813-838 | A longer streak never waits less |
| Cooldown.BackoffFor | internal/rotation/backoff.go:27-46 | The backoff is positive and within the maximum for every jitter, and within ten percent of the doubling base while that fits 64 bits, or whenever an overflowing conversion gives the least or the greatest value |
| Cooldown.RetryWait | internal/rotation/engine.go:378-387 | The wait is in (0, ceiling] for every jitter and hint, never short of the hint below the ceiling, and otherwise the backoff |
| Sanitizing.Sanitize | internal/sanitize/sanitize.go:19-24 | The loops compute the fast path or the redacted, cleaned and bounded text |
| Sanitizing.FastPathExact | internal/sanitize/sanitize.go:26-46 | The fast path gives what the whole pipeline gives exactly on valid UTF-8 |
| Sanitizing.FastPathDiffers | internal/sanitize/sanitize.go:26-46 | A byte that starts no rune is shown as it is, though the pipeline would replace it |
| Sanitizing.SanitizedIsSafe | internal/sanitize/sanitize.go:110-190 | Whatever the bytes, the result has no controls and at most 512 runes and an ellipsis; valid text stays valid |
| Sanitizing.UrlUserinfoHidden | internal/sanitize/sanitize.go:56-98 | What is shown does not depend on the userinfo of a URL anywhere in the text, for userinfo that is part of one token |
| Sanitizing.UrlRedactedExactly | internal/sanitize/sanitize.go:56-104 | The userinfo gives way to the mark, and all else stays, if and only if it is part of one token |
| Sanitizing.BareUserinfoHidden | internal/sanitize/sanitize.go:56-98 | Nor on the userinfo of a bare user:pass@host, under the same condition |
| Sanitizing.BareRedactedExactly | internal/sanitize/sanitize.go:56-104 | The bare userinfo gives way to the mark if and only if it is part of one token |
| Sanitizing.RedactedTwice | internal/sanitize/sanitize.go:62-98 | Redacting redacted text changes nothing |
| Sanitizing.NothingToRedact | internal/sanitize/sanitize.go:62-67 | The gate before the walk skips only walks that change nothing |
| Sanitizing.CsiVanishes | internal/sanitize/sanitize.go:146-155 | A complete control sequence vanishes whole and takes nothing around it along |
| Sanitizing.OscVanishes | internal/sanitize/sanitize.go:156-168 | So does a title, ended by BEL or by ESC backslash |

## Left out

- Sockets, TLS, deadlines on connections, HTTP parsing, the reverse proxy of absolute-form requests.
- Logging, metrics, the admin endpoints, the lifecycle and its readiness.
- Configuration parsing and validation, except the concurrency cap; route lists are taken as duplicate-free, as validation leaves them.
- Credentials: digests, basic authentication, header stripping.
- The worker count of the warm pool and its wake-ups; the dialling gauge is a parameter of a claim.
- The counters of the warm pool: they do not add up in the program, so the connections themselves are followed.
- WarmRuns.BoundsHold: the total idle cap is a ceiling over all configurations seen, because the program does not enforce a smaller one on what is already parked.
- Tunnel.ServeTunnel: dials through an arbitrary outcome; that the warm pool's dialling has such outcomes is WarmDial.DialWarmFirst, which stands by itself.
- Procedures.Others and Tunnel.Others: the environment is what their contracts say; the sessions and procedures of the environment are not run by a scheduler of the model.
- RouteSafety.PairsStayBounded: the condition is on names and cooldowns; the exact one, for any run, is that of RouteSafety.PairsStayCapped.
- Cooldown.BackoffFor: real arithmetic stands for the float product; outside 64 bits nothing is promised for conversion results other than the least and the greatest value.
- Procedures.RunProcedure: the warm pool is not carried through a procedure; that the begin a procedure calls is one step of both runs is RotationStart.Begin.
- RouteSafety.HistoriesStayConserved: for address literals, which is what a probe returns.
- Routing.MatchIgnoresCaseAndDot: lower-casing is that of ASCII.
- Handshake.SocksConnectRequest: whether text is an address literal is given with the target, not parsed.
- Atomics are read and written in one step; wrap-around of 64-bit counters is not modelled.
