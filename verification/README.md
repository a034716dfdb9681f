# Verified model of grpc-go-polaris

A Dafny 4.11 model of the parts of grpc-go-polaris that keep state: the load balancer that
gRPC drives through callbacks, the resolver's watcher goroutine, the registration of a
server's services, and the shared polaris context. `dafny verify dfyconfig.toml` checks it.

## How it is organised

| file | module | what it holds |
|---|---|---|
| `PolarisBalancer.dfy` | `PolarisBalancer` | the balancer object, its loops, and the gRPC connection it calls |
| `BalancerModel.dfy` | `BalancerModel` | the same callbacks as functions on the balancer's abstract state; runs |
| `BalancerInvariants.dfy` | `BalancerInvariants` | the invariants, and that every callback keeps them |
| `BalancerRuns.dfy` | `BalancerRuns` | ready view, evaluator, cached state, publication, nil safety, reconnects |
| `History.dfy` | `History` | remembered fields, cached picker and tracked states in terms of the callbacks so far |
| `Reconciliation.dfy` | `Reconciliation` | what an address list does to the connections |
| `Lifecycle.dfy` | `Lifecycle` | live, retired and gone connections |
| `Failures.dfy` | `Failures` | when pickers are built, the errors behind error pickers, how long failures stick |
| `Lookup.dfy`, `Picking.dfy` | `Lookup`, `Picking` | from instances to addresses, to pickers, to picks |
| `Connectivity.dfy` | `Connectivity` | connectivity states and gRPC's state evaluator |
| `Watcher.dfy` | `Watcher` | the watcher goroutine and its wake-up channel, as interleaved steps |
| `Registration.dfy`, `PolarisServer.dfy` | `Registration`, `PolarisServer` | registering with rollback; the server object |
| `ServerRuns.dfy` | `ServerRuns` | any sequence of registering, deregistering and stopping |
| `Registry.dfy` | `Registry` | the in-memory naming server |
| `GlobalContext.dfy` | `GlobalContext` | the reference-counted context |
| `HostPort.dfy`, `Wrappers.dfy` | `HostPort`, `Wrappers` | printing and parsing `host:port`; result types |

Objects are proved against functions: every method of an object changes it exactly as the
function of the abstract state says, and the lemmas are about runs of those functions. A run
is any sequence of callbacks in any order, from a fresh object. The step-level lemmas of
`Reconciliation` and `Failures` ask for `Inv`, which `BalancerInvariants.RunKeepsInv` gives
for every state a run reaches.

## What is assumed about the environment

- gRPC delivers the balancer's callbacks one at a time. `NewSubConn` may fail at any attempt
  (attempt `n` fails when `refuse(n)`, for an arbitrary `refuse`); when it succeeds the
  SubConn is fresh. The evaluator of gRPC v1.64.0 counts Ready, Connecting, Idle and
  TransientFailure, not Shutdown, and reports the first non-empty of Ready, Connecting, Idle,
  otherwise TransientFailure.
- A resolver state carries both attributes or none (the resolver attaches both).
- Only where a lemma says so: Shutdown is reported only for a SubConn that was told to shut
  down (`Lifecycle.Disciplined`), failures carry an error (`Failures.CarriesError`), address
  list and response come from one lookup (`Lookup.Coherent`, which `Lookup.DoRefresh`
  establishes), routing and load balancing choose among what they are offered.
- gRPC does not call `ResolveNow` after `Close`. A receive from a full channel moves the
  longest-waiting sender's value into the buffer.
- A provider call is answered, loses its request, or loses only its reply; in the last case
  the caller sees an error although the registry changed.

## Where the code differs from its comments

- balancer.go:133 says the connection error is cleared on leaving TransientFailure. It never
  is: `History.FieldsFollowHistory`.
- balancer.go:350-351 says one of the two errors is always there.
  `Failures.ErrorlessExactly` gives the exact guards under which a new picker has neither, on
  all runs whose failures carry their errors. `Failures.ErrorAvailability` reduces them to the
  history of a run when creations succeed and Shutdown reports follow shutdowns. Runs that
  reach each exception: `Failures.BenignExceptionReachable`, `Failures.RefusalLosesError`,
  `Failures.EarlyShutdownLosesError`.
- balancer.go:309-310 says that the picker is an error picker in TransientFailure and made of
  the Ready connections otherwise. That holds when it is built; `Failures.KeptPicker` says
  when it is not rebuilt, and `Failures.ErrorPickerWhileConnecting` publishes an error picker
  with Connecting. On every run `History.PickerFollowsHistory` says what the cached picker is.
- An empty resolution is rejected, but only after its response has replaced the previous one
  (balancer.go:197-208). A naming picker built before the next good update then holds Ready
  connections and offers no instance: `Picking.EmptyUpdateStarves`,
  `Picking.ReadyButNotOffered`.
- A server keeps its requests after a rollback (server.go:112-117), so a later stop
  deregisters those endpoints again and removes what somebody else filed there meanwhile:
  `ServerRuns.ClearsAllTried`, `ServerRuns.StopRemovesOthers`.
- The option that supplies a context (client_option.go:120, server_option.go:175) replaces the
  shared one without touching the count. No held context is destroyed at the moment of any
  close (`GlobalContext.DestroyedWhenUnheld`), but a replaced one can be leaked:
  `GlobalContext.CloseDestroysOwn` says exactly when a close destroys the holder's context.
- A failed initialisation of the shared context is counted as a reference (global.go:84-90),
  so no context is destroyed afterwards: `GlobalContext.FailedInitialisationLeaks`.

## Model

| member | source | states |
|---|---|---|
| HostPort.RenderInjective | resolver.go:221-224 | a printed address determines host and port, for hosts with any characters |
| HostPort.AtoiRoundTrip | server.go:247-248 | a printed number is read back, over the whole 64-bit range |
| HostPort.AtoiExact | resolver.go:148-151 | all strings: exactly an optional sign followed by digits within the 64-bit range is accepted, with its value; anything else is rejected |
| HostPort.DecimalExact | resolver.go:221-224 | all numbers and strings: the printed form is the one numeral without leading zeros, and with a sign only if negative |
| HostPort.DigitsValueConcat | server.go:247-248 | numerals are positional: what a digit counts depends on the number of digits to its right |
| HostPort.ParsePortRoundTrip | server.go:242-249 | the port of a printed address is recovered whatever the host contains |
| HostPort.ParsePortDomain | server.go:242-249 | exactly the strings whose last colon is followed by a number are accepted, with that number as port; no colon has its own error |
| HostPort.ParseHostRoundTrip | resolver.go:140-153 | a printed address is recovered if and only if its host has no colon, and is rejected otherwise |
| HostPort.ParseHostDomain | resolver.go:140-153 | no colon gives port 0, one colon needs a number, two or more are rejected |
| Connectivity.ConnectivityStateEvaluator.RecordTransition | balancer.go:294 | the evaluator's counters move with a transition and give the current aggregate |
| Connectivity.HistogramAggregates | balancer.go:294 | counters that equal the histogram of the tracked states report Ready > Connecting > Idle > TransientFailure of those states |
| Connectivity.TransitionCounts | balancer.go:282-294 | one transition keeps the counters equal to the histogram, for creation, change and removal |
| PolarisBalancer.ClientConn.NewSubConn | balancer.go:176-181 | an attempt is refused or hands out a fresh connection recorded with the address it dials |
| PolarisBalancer.ClientConn.Connect | balancer.go:185 | the call is recorded for that connection and nothing else changes |
| PolarisBalancer.ClientConn.Shutdown | balancer.go:231 | the call is recorded for that connection and nothing else changes |
| PolarisBalancer.ClientConn.UpdateState | balancer.go:237 | the last published pair is replaced |
| PolarisBalancer.PolarisNamingBalancer.constructor | balancer.go:83-90 | a new balancer has the initial abstract state and satisfies the invariant |
| PolarisBalancer.PolarisNamingBalancer.CreateSubConnection | balancer.go:169-186 | the object changes as the creation step of the abstract state, evaluator and ledger included |
| PolarisBalancer.PolarisNamingBalancer.CreateAll | balancer.go:219-224 | the creation loop is the fold of the creation step, and collects exactly the given keys |
| PolarisBalancer.PolarisNamingBalancer.RemoveStale | balancer.go:227-235 | whatever the iteration order, exactly the addresses outside the set are forgotten and their connections shut down once each |
| PolarisBalancer.PolarisNamingBalancer.RemoveOne | balancer.go:230-231 | one address is forgotten and its connection shut down |
| PolarisBalancer.PolarisNamingBalancer.Absorb | balancer.go:194-203 | options are taken once, response and configuration always, before the address check |
| PolarisBalancer.PolarisNamingBalancer.Reconcile | balancer.go:210-235 | a good update up to its picker, as one function of the old state |
| PolarisBalancer.PolarisNamingBalancer.Accept | balancer.go:210-238 | a good update including the published picker |
| PolarisBalancer.PolarisNamingBalancer.UpdateClientConnState | balancer.go:193-239 | the whole callback, both outcomes and the returned error; keeps the invariant |
| PolarisBalancer.PolarisNamingBalancer.ResolverError | balancer.go:242-259 | the whole callback; keeps the invariant |
| PolarisBalancer.PolarisNamingBalancer.ReportError | balancer.go:243-258 | early return, or an error picker that is published |
| PolarisBalancer.PolarisNamingBalancer.UpdateSubConnState | balancer.go:262-306 | the whole callback: unknown, ignored and recorded notifications; keeps the invariant. When the picker stays is `Failures.KeptPicker` |
| PolarisBalancer.PolarisNamingBalancer.HandleTransition | balancer.go:282-305 | a recorded notification, its publication, and its new picker under the two guards that `Failures.BuiltPicker` and `Failures.KeptPicker` state from the state before |
| PolarisBalancer.PolarisNamingBalancer.Record | balancer.go:282-294 | tracked state, reconnect, error and aggregate after a recorded notification |
| PolarisBalancer.PolarisNamingBalancer.RegeneratePicker | balancer.go:311-345 | the picker is the function of the state it should be, nothing else is written, and no nil response is read |
| PolarisBalancer.PolarisNamingBalancer.CollectReady | balancer.go:316-322 | the loop collects exactly the live Ready connections, in any order |
| PolarisBalancer.PolarisNamingBalancer.FilterInstances | balancer.go:324-334 | the loop keeps the instances with a connection in order and sums their weights |
| BalancerInvariants.InitInv | balancer.go:83-90 | the initial state satisfies the invariant |
| BalancerInvariants.StepKeepsInv | balancer.go:193-306 | every callback keeps the invariant; it panics exactly on a non-empty update before any attributes |
| BalancerInvariants.RunKeepsInv | balancer.go:193-345 | the invariant holds after every run |
| BalancerInvariants.CreateAllKeepsCore | balancer.go:219-224 | the creation loop keeps counters, ledger, cached-state lag and nil safety, and only adds fresh Idle connections |
| BalancerInvariants.RetireKeepsCore | balancer.go:227-235 | the deletion loop keeps them too; nothing live is ever shut down |
| BalancerInvariants.RecordedState | balancer.go:282-294 | after a recorded notification the cached state is the aggregate of the tracked states |
| BalancerInvariants.RebuiltInv | balancer.go:311-345 | rebuilding and publishing a picker re-establishes the whole invariant without reading nil |
| BalancerInvariants.OfferedKeys | balancer.go:327-334 | the filter offers exactly the response's keys that have a connection |
| BalancerRuns.ReadyViewExact | balancer.go:300-345 | after every run the cached picker hands out exactly the live connections recorded as Ready, by address |
| BalancerRuns.EvaluatorExact | balancer.go:169-186 | after every run the counters are the histogram of the tracked states, and Shutdown is never stored |
| BalancerRuns.NoUnderflow | balancer.go:294 | the decrement of a transition never meets a zero counter |
| BalancerRuns.CachedStateLags | balancer.go:184 | the cached state is the exact aggregate or TransientFailure: it lags pessimistically only |
| BalancerRuns.NotificationRefreshesState | balancer.go:294 | every recorded notification makes the cached state exact |
| BalancerRuns.PublishedConsistent | balancer.go:237-305 | from the first publication on gRPC was last given the cached pair, never a nil picker |
| BalancerRuns.NilSafety | balancer.go:194-214 | a run panics if and only if a non-empty update comes before the first attributes |
| BalancerRuns.NothingMissing | balancer.go:242-254 | with anything tracked, options and response are set; naming pickers carry the options; the resolver-error path builds error pickers only |
| BalancerRuns.ReconnectLedger | balancer.go:267-285 | `Connect` calls are one for creation plus one per Idle notification heard while tracked |
| History.FieldsFollowHistory | balancer.go:194-216 | options, response, configuration and both errors as functions of the callbacks so far; the connection error is never cleared |
| History.ErrorPickerReports | balancer.go:349-359 | an error picker reports the latest connection error and the outstanding resolver error, each in its own place |
| History.PickerFollowsHistory | balancer.go:300-345 | on every run the cached picker is the one of the latest building callback, and each of its parts is a function of the history up to there: errors, or Ready connections, instances, weight, service, options and configuration |
| History.StatesFollowReports | balancer.go:266-289 | on every run the tracked state of a connection is a function of the reports for it alone: the latest, except that a failure hides Idle and Connecting |
| Reconciliation.UpdatedKeys | balancer.go:219-235 | after a good update only given addresses are live, and all of them if no creation was refused |
| Reconciliation.UpdatedAttempts | balancer.go:172-181 | with no refusal one creation per missing address, repeated or not |
| Reconciliation.UpdatedRefusals | balancer.go:172-186 | with any refusals: each attempt makes a connection or is refused, and no more addresses stay without one than attempts were refused |
| Reconciliation.UpdatedSurvivors | balancer.go:172-186 | surviving addresses keep connection and state; new ones get a fresh Idle connection dialled to them |
| Reconciliation.UpdatedShutdowns | balancer.go:227-235 | exactly the connections of addresses that no given address names are shut down, once each |
| Reconciliation.OrderIrrelevant | balancer.go:219-235 | order and repetition of the list do not matter for addresses, creations and shutdowns |
| Reconciliation.UpdateIdempotent | balancer.go:193-239 | repeating an update that was refused nothing leaves the whole state as it is |
| Reconciliation.FailureKeepsConnections | balancer.go:205-259 | an empty list or a resolver error removes and creates nothing; which fields it changes |
| Lifecycle.PhaseNeverReturns | balancer.go:227-289 | along every run a connection never returns to an earlier phase |
| Lifecycle.PhasesExact | balancer.go:282-289 | live connections are tracked and not shut down, retired and gone ones were shut down exactly once, no two addresses share one |
| Failures.ErrorlessExactly | balancer.go:347-359 | on every run whose failures carry errors, a newly built picker reports no error exactly under guards of the state before the callback |
| Failures.ErrorAvailability | balancer.go:347-359 | with no refusals and only expected Shutdown reports, the guards are one situation of the history |
| Failures.BenignExceptionReachable | balancer.go:215-237 | a run that reaches that situation |
| Failures.BuiltPicker | balancer.go:295-345 | under the guards the picker is new: the current errors if and only if the cached state is TransientFailure, else the current Ready connections |
| Failures.KeptPicker | balancer.go:242-305 | the converse: without the guards the picker stays; a recorded notification publishes it with the aggregate of the tracked states, after anything else the last published pair is as before |
| Failures.ErrorPickerWhileConnecting | balancer.go:295-305 | a run without refusals after which an error picker is published with Connecting |
| Failures.RefusalLosesError | balancer.go:350-359 | a run with a refused creation that reaches the other guard |
| Failures.EarlyShutdownLosesError | balancer.go:286-303 | a run without refusals that reaches it by a Shutdown nobody asked for |
| Failures.FailureSticks | balancer.go:272-289 | a recorded failure ends only with Ready or with removal, on those notifications |
| Failures.StickyFailure | balancer.go:272-281 | the same over every run |
| Failures.AllFailedIsQuiet | balancer.go:272-281 | when all tracked connections failed, Idle and Connecting reports change nothing but `Connect` calls |
| Lookup.DoLookup | resolver.go:188-227 | the last interceptor's output is attached, and gives one printed address per instance in order; an error is passed on |
| Lookup.DoRefresh | resolver.go:270-284 | one refresh becomes one balancer callback, whose addresses and response both come from the last interceptor's output |
| Lookup.AddressesOfKeys | resolver.go:221-225 | the printed addresses are the keys of the instances |
| Lookup.InterceptedInOrder | resolver.go:214-216 | no interceptor keeps the answer, one is applied to it, and a later list gets what an earlier one made |
| Picking.OfferedConcat | balancer.go:327-334 | the instance filter keeps the order |
| Picking.OfferedCounts | balancer.go:327-334 | it keeps every occurrence of an instance with a connection and nothing else |
| Picking.WeightConcat | balancer.go:324-333 | the total weight is the sum of the instances' weights |
| Picking.RebuiltOffer | balancer.go:316-344 | a naming picker offers exactly the Ready connections the response names, with the sum of their weights |
| Picking.OfferMatchesConnections | balancer.go:219-344 | if the latest update was good, offered keys and Ready keys coincide, even with refused creations |
| Picking.EmptyUpdateStarves | balancer.go:197-208 | after an empty update a rebuilt picker offers nothing; it holds connections no pick can choose if and only if the notification leaves a live connection Ready |
| Picking.ReadyButNotOffered | balancer.go:197-208 | a concrete run that ends with a Ready connection no pick can choose |
| Picking.PickExact | balancer.go:407-464 | for any router and balancing: a pick fails if and only if one of them does, and otherwise follows the instance chosen from the routed list, or from the offer without routing |
| Picking.PickOffered | balancer.go:407-464 | choosing an offered instance always finds its connection |
| Picking.PickSound | balancer.go:407-464 | in every reachable state a pick neither panics nor asks gRPC to wait; it returns a live Ready connection dialled to the chosen host and port only, and the chosen instance is in the routed list |
| Picking.EveryReadyPickable | balancer.go:411-461 | if the latest update was good, every live Ready connection has an offered instance, and choosing it, routed or not, returns that connection |
| Watcher.NoLostWakeup | resolver.go:169-174 | in every interleaving an unserved request is covered by a token; a dropped one by the buffered token |
| Watcher.HistoryExact | resolver.go:243-267 | in every interleaving the unserved requests are the calls since the latest lookup began; cancelled and stopped mean that `Close` and the stop happened |
| Watcher.OnlyUpdatesWait | resolver.go:169-174 | in every interleaving only `OnInstancesUpdate` calls wait, the longest-waiting first to go; exactly the `ResolveNow` calls that met a full buffer are dropped |
| Watcher.ResolveNowNeverWaits | resolver.go:169-174 | after any schedule `ResolveNow` leaves the waiting senders alone, none of which is a `ResolveNow`; it is dropped or accepted |
| Watcher.UpdatesAreNeverDropped | resolver.go:286-292 | after any schedule `OnInstancesUpdate` waits exactly on a full, open channel, is abandoned exactly on a closed one, and is never dropped |
| Watcher.ServedWithinThree | resolver.go:256-267 | a lookup begins within three further watcher steps of any request, whatever else happens |
| Watcher.NeverStuck | resolver.go:256-267 | with an unserved request the watcher has a step to take, even without the timer |
| Watcher.Conservation | resolver.go:243-292 | calls, tokens, receives, ticks and lookups balance in every interleaving |
| Watcher.StoppedReleases | resolver.go:251-291 | once the watcher stopped no sender waits, then or later |
| Watcher.PolarisNamingResolver.ResolveNow | resolver.go:169-174 | the non-blocking send: no sender is queued, and a full buffer drops the call |
| Watcher.PolarisNamingResolver.OnInstancesUpdate | resolver.go:286-292 | the blocking send: queued on a full buffer, never dropped, abandoned on a closed channel |
| Watcher.PolarisNamingResolver.Close | resolver.go:295-297 | cancellation as a step |
| Watcher.PolarisNamingResolver.Select | resolver.go:257-266 | one select takes an enabled case, and the preferred one whenever it is ready |
| Watcher.PolarisNamingResolver.StartRefresh | resolver.go:270-275 | a refresh begins its lookup |
| Watcher.PolarisNamingResolver.FinishRefresh | resolver.go:276-284 | a refresh ends and the watcher selects again |
| Registry.NamingServer.RegisterInstance | test/mock/naming.go:90-119 | the instance is stamped, its own fields unchanged, and filed under service and address |
| Registry.NamingServer.DeregisterInstance | test/mock/naming.go:122-154 | the endpoint is cleared and what was there returned |
| Registry.NamingServer.Heartbeat | test/mock/naming.go:200-232 | only a registered instance is counted |
| Registry.FileEntry | test/mock/naming.go:102-112 | registering changes one endpoint |
| Registry.UnfileEntry | test/mock/naming.go:134-147 | deregistering clears one endpoint |
| Registry.RegistryHoldsLatest | test/mock/naming.go:90-240 | after any calls each endpoint holds its latest registration, and counters count heartbeats of registered instances by address |
| Registration.DeregisteredEntry | server.go:251-271 | deregistering clears exactly the endpoints one of whose requests arrives |
| Registration.SentHere | server.go:110-120 | a registration that reaches the registry, answered or not, leaves its service at the server's host and port |
| Registration.SentElsewhere | server.go:110-120 | endpoints that no registration reaches are left alone |
| Registration.AnsweredRegisters | server.go:110-121 | while calls are answered the loop registers every name in order and remembers every request |
| Registration.UnansweredStops | server.go:112-117 | the loop stops at the first error, with the failed request remembered too |
| Registration.RollbackLeavesNothing | server.go:110-117 | after a failure nothing of the server is left, even from a call that took effect, and other entries are unchanged |
| Registration.SuccessRegistersAll | server.go:108-121 | success if and only if all calls are answered; then all names are served and other entries unchanged |
| Registration.AllOrNothing | server.go:108-121 | while no request is lost every name is served, or nothing is left where this server ever registered and all else is kept |
| Registration.DeregisterAfterSuccess | server.go:166-168 | deregistering after a success clears exactly what the server ever asked for and leaves every other entry as before registering |
| Registration.DeregisterUndoesRegister | server.go:166-168 | it restores any endpoint the server did not take over from somebody else |
| ServerRuns.AttemptedRequests | server.go:110-117 | a registration remembers the requests up to its first error, failed one included, after all earlier ones |
| ServerRuns.RemembersAllTried | server.go:110-148 | over any calls the server remembers every request it ever tried; it is stopped if and only if `Stop` was called |
| ServerRuns.ClearsAllTried | server.go:143-168 | deregistering, and the first `Stop`, clear exactly the endpoints ever tried, whoever filed them; a later `Stop` changes nothing |
| ServerRuns.CallsExact | server.go:110-168 | the number of provider calls over any calls on the server; `Stop` deregisters once |
| ServerRuns.StopRemovesOthers | server.go:112-148 | a run in which stopping removes an instance of somebody else |
| PolarisServer.ProviderAPI.RegisterInstance | server.go:113 | a provider call changes the registry unless its request is lost, and is ok only if answered |
| PolarisServer.ProviderAPI.Deregister | server.go:262 | the same for a deregistration |
| PolarisServer.DeregisterEach | server.go:251-271 | the loop goes on after errors |
| PolarisServer.BuildServiceNames | server.go:198-212 | every service once, in any order, unless a name is configured |
| PolarisServer.Server.Locate | server.go:94-107 | the configured host, else the local one; the configured port, else the number after the last colon of the listener's address; exactly when which error prevents it |
| PolarisServer.Server.DoRegister | server.go:93-122 | after success every listed service is served at that host and port; after a failed registration nothing is left; exactly when each of the three errors is returned, and no call if host or port is missing |
| PolarisServer.Server.RegisterEach | server.go:110-121 | the loop with rollback, as one function of the old registry |
| PolarisServer.Server.Deregister | server.go:166-168 | every remembered request is deregistered |
| PolarisServer.Server.Stop | server.go:143-163 | only the first call deregisters |
| GlobalContext.NeverDestroyedWhileHeld | global.go:67-91 | no held context is destroyed, none twice; the count is holders plus failed initialisations |
| GlobalContext.ExistsWhileHeld | global.go:80-91 | context, count and holders agree exactly while no initialisation has failed |
| GlobalContext.AcquiredExactly | global.go:81-91 | an acquirer gets the current context, else one never held or destroyed before, else nothing; a destroyed one is never handed out again |
| GlobalContext.FreshAfterDestruction | global.go:67-91 | after the last holder closed, the next acquirer gets and holds a new context |
| GlobalContext.DestroyedExactly | global.go:67-78 | closing destroys if and only if the last holder closes and no initialisation ever failed |
| GlobalContext.FailedInitialisationLeaks | global.go:84-90 | after one failed initialisation nothing is ever destroyed |
| GlobalContext.CountExact | global.go:67-97 | with replacements too, the count is holders plus failed initialisations plus closes that found no context |
| GlobalContext.DestroyedWhenUnheld | global.go:67-97 | with replacements too, only a close after which nobody holds a context destroys one |
| GlobalContext.CloseDestroysOwn | global.go:67-97 | a holder's close destroys its own context if and only if that is still the current one and the count is one |
| GlobalContext.ReplacementLeaks | global.go:93-97 | a run in which a replaced context is never destroyed |
| GlobalContext.PolarisGlobals.PolarisContext | global.go:81-91 | acquiring, with and without initialisation and its failure |
| GlobalContext.PolarisGlobals.ClosePolarisContext | global.go:67-78 | releasing, and destroying at zero |
| GlobalContext.PolarisGlobals.SetPolarisContext | global.go:93-97 | only the context is replaced |

## Left out

- The polaris SDK (instance queries, routing, load balancing, circuit breaking, quotas) appears only as arbitrary answers.
- Traffic labels, result reporting and rate limiting copy data into SDK requests; the choice of a load-balancing policy for a request does too.
- The size of Go's integers is modelled in `HostPort.Atoi` only: the evaluator's counters, weights and ids are unbounded, so more than 2^64 tracked connections are outside the model.
- SubConns are numbers; that their calls run in other goroutines is not modelled, only that each call happens.
- Of the `UpdateState` calls only the last pair is recorded, so a call that repeats it is not told apart from none.
- Each balancer callback is one atomic step. The locks inside a callback, and the fields `ResolverError` reads before it locks, are not modelled.
- A resolver state that carries one attribute but not the other panics in Go and is not part of the model.
- A failing `doWatch`: the watcher goes on without instance events, which the model covers as runs without `OnInstancesUpdate`; what cancelling a watch that never started does belongs to the SDK.
- Watcher.PolarisNamingResolver.Select: the watcher's endless loop is given by its single steps, since a loop would hide the steps of other goroutines between them.
- PolarisServer.Server.Stop: the graceful stop of the gRPC server and its deadline are left out; the compare-and-swap is a plain test and set, since calls of `Stop` are not interleaved here.
- PolarisServer.Server.DoRegister: finding the local host is a given answer; metadata, token, time-to-live and the delayed start are left out.
- Target URLs, dial options in JSON, option setters, logging, signals and sockets.
- `extractBareMethodName` and `extractBareServiceName` cut a method path at its last slash; `getNamespace` puts a default for an empty namespace; `Discover` streams the filed instances.
