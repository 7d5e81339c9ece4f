# Verification of the ECS / ObjectScale exporter's concurrent core

The exporter keeps one authenticated client per scraped target.  The storage systems allow a user
only 100 live tokens (docs/design.md, line 17), so its design turns on not losing tokens: one
cached token per client shared by all requests, one client per target shared by all scrapes, a
logout for every client that is given up, and a bounded retry when a token is refused.  On top of
that sit four concurrent fan-outs, and the decoding and printing around the Flux query language.
This project models that core and proves what the design promises of it, for every schedule of the
goroutines, every answer of the servers and every input.

| file | what it holds |
|---|---|
| `AuthProtocol.dfy` | the shared-token protocol of one client as a state machine of atomic critical sections; history, ledger and retry theorems |
| `AuthLocks.dfy` | the same client with `authMu`, field access and wire traffic as separate steps; refinement to `AuthProtocol` |
| `AuthClient.dfy` | `Client` as a class, one method per Go function; its methods are the protocol's actions |
| `ClientCache.dfy`, `ClientCacheInvariant.dfy`, `TokenConservation.dfy` | the whole exporter: targets, racing scrapes, calls, shutdown; its invariant; conservation and agreement theorems |
| `ScrapeLife.dfy` | what one scrape creates, logs in and logs out inside `getOrCreateClient`, how it ends, and that it never gets stuck |
| `CreationTokens.dfy` | which token survives the race to create a target's client |
| `Shutdown.dfy` | drain and logout: what a drained shutdown leaves behind, and that draining is exactly what it takes |
| `Exporter.dfy` | `getOrCreateClient` and `logoutAll` over a map of `Client` objects |
| `Metering.dfy`, `Perf.dfy`, `NodeStats.dfy` | the fan-outs, each shown to agree with a sequential program |
| `Dashboard.dfy` | the gauges of the cluster and replication collectors |
| `Probe.dfy` | one `/probe` request: memoised accessors, cost of a probe, one zone and one node list for all readers |
| `FluxDecode.dfy`, `FluxDuration.dfy` | the Flux table decoder and the duration printer, with their round trips |
| `Metrics.dfy`, `Collections.dfy` | the gauge record; facts about sequences, sets and maps |

## How the source is read

- **Tokens** are strings, `""` being the source's "nothing cached".  A token is *live* at a server
  from its issue until it expires or is revoked, and a server answers 401 to a data request only if
  the token is not live; expiry may happen at any moment.  `ClientCache` and `FreshRun` assume that
  a server never issues the same token twice, and `AuthProtocol.ReissueDefeatsTheRetry` shows that
  this is needed for the retry to carry a new token.  `AuthProtocol.CountersHold` and
  `CallsTerminate` need no assumption on the server.
- **The network** may lose a request, its reply, or the token in the reply: `Refused` and
  `NoAnswer` stand for every error path of a login and a logout, including a request that could not
  be built.  A logout answered by 200 or 401 leaves the token dead; any other answer leaves it
  either way.
- **An incident** is an event after which a live token may have no owner left: a login whose token
  did not reach the client, a losing scrape's logout that got no answer, a logout answered by
  neither 200 nor 401.  `ClientCache` records each one when it happens.
- **Schedules.**  A run is a sequence of actions chosen freely; theorems quantify over all runs.
  Where the source leaves a choice to the runtime (map iteration, goroutine order), the methods
  choose with `:|`, so that their contracts hold of every choice.
- **Numbers** are exact reals.  Number and time parsing are arbitrary partial functions
  (`FluxDecode.Codec`).  `FluxDuration` models int64 with its wrap-around.

## Where code and comments differ

The model follows the code.

- The comment on `Login` (internal/obsclient/auth.go, lines 15-17) says concurrent calls never log
  in twice.  `Login` always logs in, so a second one overwrites the first token; the ledger counts
  these overwrites, and `TokenConservation.LoginsPerClient` shows that the exporter, which calls
  `Login` once per new client, never has one.
- `Logout` drops the cached token for any HTTP status and keeps it when no response arrives.
- The numeric fields of `NodeDTStats` are said to stay 0 on an error (internal/obsclient/dtstats.go,
  lines 16-17).  If only the ping fails they are already filled in.  `nodeDTMetrics` drops the
  entry either way.
- `main` may return while the signal goroutine is still draining; the shutdown theorems are about a
  completed `logoutAll`.
- `srv.Shutdown` gives up after ten seconds, and then `logoutAll` runs beside scrapes in flight.
  From every such state the shutdown can go on so that every logout is answered and a live token is
  left behind all the same (`Shutdown.UndrainedShutdownLeaks`); a shutdown whose logouts are answered
  leaves nothing behind, however it goes on, if and only if no scrape was in flight
  (`Shutdown.NothingIsLeftIffDrained`).  The goroutine could tell by the error `srv.Shutdown` returns
  when it gives up.
- `fluxDuration` is exact only for durations whose rounded value fits int64 nanoseconds: in the last
  355 milliseconds before either extreme `Round` saturates.  Near the top the literal is a second
  short; near the bottom the text is a lone `-`.  `FluxDuration.TextReadsBack` gives the exact
  condition.  The start-up check (internal/config/config.go, lines 107-112) bounds the range from
  above only.

## Model

| member | source | states |
|---|---|---|
| AuthProtocol.CountersHold | internal/obsclient/auth.go:143-166 | in every reachable state, whatever the server does, each call has sent at most two data requests and tried at most two logins, and logins = clears + logouts + overwrites + (1 if a token is cached) |
| AuthProtocol.NoResurrection | internal/obsclient/auth.go:104-125 | over every interleaving, a token that has left the cache is never cached again, so a late invalidation of an old token never clears a newer one |
| AuthProtocol.LateInvalidationIsHarmless | internal/obsclient/auth.go:119-125 | an invalidation clears the cache exactly if it finds the rejected token there |
| AuthProtocol.RejectedDrew401 | internal/obsclient/auth.go:150-151 | a token counts as rejected if and only if a data request that carried it was answered 401 |
| AuthProtocol.RetryCarriesAnotherToken | internal/obsclient/auth.go:143-166 | the retry always carries a token other than the one that drew the 401, and the refused one is not cached any more |
| AuthProtocol.ReissueDefeatsTheRetry | internal/obsclient/auth.go:150-166 | a concrete run: with a server that reissues a token, the retry carries the refused token again |
| AuthProtocol.HistoryHolds | internal/obsclient/auth.go:104-166 | every token a call holds is the cached one or a retired one, what was cleared drew a 401, and no token is cleared twice |
| AuthProtocol.StepIsEnvironment | internal/obsclient/auth.go:26-125 | a step of one client is, to every other client of the same server, an environment step |
| AuthProtocol.LoginsAreAccountedFor | internal/obsclient/auth.go:18-125 | successful logins are at most 1 + distinct tokens that drew a 401 + clearing logouts + overwrites by `Login` |
| AuthProtocol.ReloginsInWindow | internal/obsclient/auth.go:104-166 | the same between any two points of a run, counting only tokens not retired before the first |
| AuthProtocol.OneReloginPerStaleToken | internal/obsclient/auth.go:104-125 | any number of concurrent requests refused on one stale token cause at most one login |
| AuthProtocol.CallsTerminate | internal/obsclient/auth.go:143-178 | under every schedule and server a call ends after at most six of its own actions, and one of them is possible until then |
| AuthProtocol.DataRequestsBounded | internal/obsclient/auth.go:143-166 | data requests sent in a run are at most twice the calls begun |
| AuthProtocol.DataRequestsByCalls | internal/obsclient/auth.go:143-166 | whatever other calls share the client, any set of calls sends at most two data requests each |
| AuthLocks.ExclusiveHolds | internal/obsclient/auth.go:18-125 | in every reachable state the mutex holder is the one goroutine inside a critical section, and the field does not change under a login or logout on the wire |
| AuthLocks.OneAuthRequestInFlight | internal/obsclient/auth.go:18-88 | at most one login or logout of a client is ever in flight |
| AuthLocks.NeverStuck | internal/obsclient/auth.go:18-125 | while a goroutine is unfinished, some started goroutine can act: no deadlock |
| AuthLocks.StepsBounded | internal/obsclient/auth.go:143-178 | under every schedule a goroutine takes at most sixteen steps |
| AuthLocks.RunRefines | internal/obsclient/auth.go:18-166 | every run with lock, read, wire, write and unlock steps is matched, state by state and in order, by a run in which each critical section is one atomic action |
| AuthLocks.StepRefines | internal/obsclient/auth.go:18-166 | a single fine-grained step is matched by its atomic action or by standing still |
| AuthLocks.NoResurrection | internal/obsclient/auth.go:104-125 | with explicit locking, a token seen to leave the field while the mutex is free is never seen there again |
| AuthLocks.RetryCarriesAnotherToken | internal/obsclient/auth.go:143-166 | with explicit locking, the retry never repeats the refused token |
| AuthClient.Client.Login | internal/obsclient/auth.go:18-51 | one `/login` whatever is cached; the token is stored only from a 200 with a non-empty header, else the old one stays |
| AuthClient.Client.Logout | internal/obsclient/auth.go:58-88 | nothing is sent if nothing is cached; the token is dropped on any response and kept without one; 200 and 401 are success |
| AuthClient.Client.EnsureLoggedIn | internal/obsclient/auth.go:104-113 | returns the cached token without traffic, or logs in first and returns the new one |
| AuthClient.Client.InvalidateToken | internal/obsclient/auth.go:119-125 | clears the field exactly if it still holds the stale token |
| AuthClient.Client.CallAuthenticatedJSON | internal/obsclient/auth.go:143-178 | the resulting token, wire log and verdict of one call, with one retry after a 401, none after any other failure, and an error for a 200 whose body does not decode |
| AuthClient.AuthStepsAreActions | internal/obsclient/auth.go:18-125 | `Login`, `Logout` and `invalidateToken` change the token exactly as the protocol's enabled atomic actions do, and its ledger books a login exactly if it succeeded, a logout exactly if it was answered, a clear exactly if it found the stale token |
| AuthClient.CallIsProtocolRun | internal/obsclient/auth.go:143-178 | `callAuthenticatedJSON` is a run of the protocol by one call from start to finish, with the same final token and as many data requests and logins |
| AuthClient.CallIsBounded | internal/obsclient/auth.go:143-178 | whatever the server answers, one call sends at most two data requests and two logins |
| AuthClient.CallVerdict | internal/obsclient/auth.go:168-178 | a call succeeds if and only if its last exchange is a data request answered 200 with a body that decodes, which it returns |
| AuthClient.CallFailure | internal/obsclient/auth.go:143-178 | a failed call's error names its last exchange: no response, the status, an undecodable body, or the failed login, marked as a re-login after a 401 |
| AuthClient.CallConversation | internal/obsclient/auth.go:143-166 | everything a call says is a data request to its own address with the cached or just granted token, or a login that is needed; a second data request comes only after a 401, and after a first 401 something does come |
| AuthClient.LoginVerdict | internal/obsclient/auth.go:18-51 | one request; success exactly for a 200 with a non-empty header, which is stored; otherwise the old token stays and the error says why |
| AuthClient.LogoutVerdict | internal/obsclient/auth.go:58-88 | one request with the cached token; an error exactly if no response came or the status is neither 200 nor 401 |
| AuthClient.RejectedCall | internal/obsclient/auth.go:143-178 | against a server that always answers 401 with fresh tokens, one call sends two data requests, one login if a token was cached and two if not, and leaves another token cached |
| AuthClient.RejectedCalls | internal/obsclient/auth.go:143-178 | k calls in a row from an empty cache: exactly k+1 logins and 2k data requests, and the last refused token stays cached |
| AuthClient.RejectingServerExists | internal/obsclient/auth.go:143-178 | there is a server that grants a new token at every login and rejects every data request |
| ClientCacheInvariant.StepKeepsSystem | cmd/obs-exporter/main.go:86-198 | every event of the exporter keeps the whole-system invariant |
| ClientCacheInvariant.SystemHolds | cmd/obs-exporter/main.go:86-198 | the invariant holds in every reachable state |
| TokenConservation.TokensAreConserved | cmd/obs-exporter/main.go:152-179 | a live token is cached in the target's mapped client, held by a scrape still inside `getOrCreateClient`, or on the incident list |
| TokenConservation.LiveTokensBounded | cmd/obs-exporter/main.go:145-179 | tokens live at a target are at most 1, if a client is stored for it, + creators in flight + incidents of that target |
| TokenConservation.IncidentsNameTheirEvent | internal/obsclient/auth.go:26-88 | the incident list only grows, one at a time, and only by the failure event it names, at the target of the client that acted, with the token granted in vain or the one that client was logging out |
| TokenConservation.CacheEntriesStay | cmd/obs-exporter/main.go:173-178 | a map entry, once stored, never changes |
| TokenConservation.ScrapesAgree | cmd/obs-exporter/main.go:152-179 | however many scrapes of a target race, all get the same client, which has logged in |
| ScrapeLife.NoClientAfterStore | cmd/obs-exporter/main.go:153-155 | once a client is stored for a target, no client is created for it any more |
| ScrapeLife.LateScrapeTakesTheStored | cmd/obs-exporter/main.go:152-155 | a scrape that starts when its target is known takes the stored client, creates none, cannot fail, and logs neither in nor out |
| ScrapeLife.OneLoginPerScrape | cmd/obs-exporter/main.go:168-178 | a scrape logs in at most once, whatever the answer, and logs out at most once, and only what it logged in |
| ScrapeLife.FailureEndsScrape | cmd/obs-exporter/main.go:165-171 | a failed creation or a refused login ends the scrape without a client and leaves the map alone |
| ScrapeLife.OnlyFailureEndsEmpty | cmd/obs-exporter/main.go:152-179 | nothing else ends a scrape without a client |
| ScrapeLife.EndsWithTheStored | cmd/obs-exporter/main.go:173-178 | a scrape that ends with a client ends with the stored one |
| ScrapeLife.ScrapeNeverStuck | cmd/obs-exporter/main.go:152-179 | in every reachable state a scrape that is not over can go on by itself |
| TokenConservation.UnmappedClientsAreSettled | cmd/obs-exporter/main.go:168-178 | a client that logged in and was not stored is still held by its creator, or has had exactly one logout attempt, and a token it still caches is an incident |
| TokenConservation.AtRestOneTokenPerTarget | cmd/obs-exporter/main.go:145-179 | with no scrape in flight, the live tokens of a target besides its incidents are at most one if a client is stored and none otherwise, and every losing client has had exactly one logout attempt |
| CreationTokens.ApartHolds | cmd/obs-exporter/main.go:168-176 | clients of one target never cache the same token, so no loser logs out the winner's; what is on the incident list has been issued |
| CreationTokens.CreationTokenSurvives | cmd/obs-exporter/main.go:168-178 | while nothing expires at a target and its stored client is not logged out, that client caches the very token its creator's login was granted, has never had another, and the token is live and no incident |
| CreationTokens.AtRestExactlyTheCreationToken | cmd/obs-exporter/main.go:152-179 | then, with no scrape in flight, exactly that token is live besides those on the incident list, and none if no client is stored |
| TokenConservation.LoginsPerClient | internal/obsclient/auth.go:15-125 | in the exporter no login overwrites a token, so a client's logins are at most 1 + distinct refused tokens + logouts |
| TokenConservation.StepsProject | internal/obsclient/auth.go:18-178 | an event of the exporter is, for each client, a step of its own protocol machine or leaves it alone |
| TokenConservation.NoResurrection | internal/obsclient/auth.go:104-125 | no resurrection for every client of the running exporter |
| Shutdown.DrainedMeansNoMoreLogins | cmd/obs-exporter/main.go:86-97 | if `logoutAll` starts with no scrape in flight, nobody logs in and no client is created any more |
| Shutdown.ShutdownLeavesNothingBehind | cmd/obs-exporter/main.go:183-198 | then, after its Range, a mapped client caches nothing unless its own logout got no answer, and what is still live is that or an incident |
| Shutdown.UndrainedShutdownLeaks | cmd/obs-exporter/main.go:90-97 | from every reachable state in which the drain is given up with a scrape in flight, shutdown can complete with every logout answered and no incident, and yet the target of that scrape is left with a cached live token |
| Shutdown.NothingIsLeftIffDrained | cmd/obs-exporter/main.go:86-97 | when the logouts begin, every way for them to complete with answers leaves no cached token and no live token outside the incident list, if and only if no scrape is in flight |
| Shutdown.ExactlyOneAttempt | cmd/obs-exporter/main.go:183-198 | every client that was cached when `logoutAll` began is asked to log out, and asked once |
| Shutdown.DrainCanBeGivenUp | cmd/obs-exporter/main.go:90-96 | a concrete run reaches such an undrained state |
| Exporter.Exporter.GetOrCreateClient | cmd/obs-exporter/main.go:152-179 | a cached client is returned without traffic; a failed login leaves the map alone; a winner stores its logged-in client; a loser returns the stored one and logs its own out |
| Exporter.HitIsGetOrCreate | cmd/obs-exporter/main.go:153-155 | in the machine, too, a map hit gives the stored client in one event that changes nothing else |
| Exporter.MissIsGetOrCreate | cmd/obs-exporter/main.go:157-171 | on a miss the machine's scrape goes as `Login` goes: over without a client, or with the token `Login` stored |
| Exporter.WinIsGetOrCreate | cmd/obs-exporter/main.go:173-178 | the machine's winner stores its own client and has it |
| Exporter.LossIsGetOrCreate | cmd/obs-exporter/main.go:173-177 | the machine's loser has the stored client, and its own is left with the token `Logout` leaves |
| Exporter.Exporter.LogoutAll | cmd/obs-exporter/main.go:183-198 | in any order of the Range, every cached client makes its own logout once, a failure stops nothing, and the map is unchanged |
| Exporter.LoserReturnsItsOwnToken | cmd/obs-exporter/main.go:168-176 | a loser's traffic is one login and one logout of the very token it was granted |
| Exporter.LogoutKeepsTokenIffUnanswered | internal/obsclient/auth.go:72-87 | a client with a token keeps it over a logout if and only if no response came |
| Metering.MeteringNamespaceMetrics | internal/collector/metering.go:95-126 | quota and billing contribute independently; the quota gauges appear if and only if the block size is a positive number |
| Metering.NamespaceGauges | internal/collector/metering.go:95-126 | the gauges of a namespace, reading by reading, with their names, labels, values and units, each once and no other |
| Metering.OkHolds | internal/collector/metering.go:61-85 | in every reachable state the shared slice is the whole blocks stored so far, in the order they were stored, and mutex, semaphore and WaitGroup agree with the goroutines |
| Metering.ConcurrencyBounded | internal/collector/metering.go:57-77 | the semaphore counts the slot holders, and at most max(1, concurrency) namespaces are in service |
| Metering.FreeSlotIsUsable | internal/collector/metering.go:58-75 | a waiting namespace may start if and only if fewer than max(1, concurrency) slots are held |
| Metering.NeverStuck | internal/collector/metering.go:61-84 | no reachable state before Wait returns is a deadlock |
| Metering.EveryStepCounts | internal/collector/metering.go:70-84 | every step brings the return one step nearer; a run has at most 9n + 1 steps |
| Metering.WaitCollectsEverything | internal/collector/metering.go:70-87 | when Wait returns the semaphore is empty, the mutex free, and the result is a permutation of whole blocks, one per listed namespace |
| Metering.AgreesWithSequential | internal/collector/metering.go:52-88 | every schedule gives the multiset of the sequential loop |
| Perf.SumTPS | internal/collector/perf.go:338-349 | the sum over succeeded and failed counters, and whether there is one |
| Perf.TpsOfOne | internal/collector/perf.go:338-349 | what counts are the values of `succeed_request_counter` and `failed_request_counter`, and no others |
| Perf.TpsConcat | internal/collector/perf.go:338-349 | sum and found flag distribute over concatenated results |
| Perf.TpsReordered | internal/collector/perf.go:338-349 | sum and found flag do not depend on the order of the results |
| Perf.TpsOfAnswer | internal/obsclient/flux.go:66-70 | the rate of an answer is the total over its series, in any order of the series |
| Perf.TpsOfReorderedRows | internal/collector/perf.go:338-349 | the rate of a series does not depend on the order of its rows |
| Perf.FindField | internal/collector/perf.go:353-360 | the value of the first result of that field; nothing exactly if there is none |
| Perf.RunThroughput | internal/collector/perf.go:276-285 | one gauge per read or write byte rate, in result order |
| Perf.RunErrors | internal/collector/perf.go:309-322 | one gauge per system or user error count, labelled with its `head` tag or the empty string |
| Perf.RunJob | internal/collector/perf.go:276-322 | what each of the six goroutines adds; a failed query adds nothing |
| Perf.ThroughputGauges | internal/collector/perf.go:276-285 | the first goroutine's report, result by result, by field and gauge name |
| Perf.RateGauges | internal/collector/perf.go:287-296 | the second reports the read rate and the third the write rate, if and only if a counter was answered |
| Perf.LatencyGauges | internal/collector/perf.go:298-307 | the fourth reports the first read median and the fifth the first write median, in seconds, and nothing without one |
| Perf.ErrorGauges | internal/collector/perf.go:309-322 | the sixth's report, result by result, by category and `head` tag |
| Perf.SequentialAppends | internal/collector/perf.go:276-322 | the sequential program appends goroutine k's report on its own query's answer |
| Perf.Schedule | internal/collector/perf.go:237-274 | under every order of the critical sections, all metrics arrive and the recorded error, if any, is one of the failed queries' |
| Perf.CollectPerf | internal/collector/perf.go:228-332 | an error comes back if and only if the six in sequence give no metric and one of them failed, and it is one of their errors; otherwise the metrics are the sequential ones up to order |
| NodeStats.GetNodeDTStats | internal/obsclient/dtstats.go:33-53 | the entry of a node, without an error if and only if both endpoints answered; a failed ping leaves the table counts in |
| NodeStats.GetAllNodeDTStats | internal/obsclient/dtstats.go:58-72 | in every completion order, result i belongs to input i |
| NodeStats.NodeDTMetrics | internal/collector/node.go:94-108 | four gauges per entry without an error, in input order, and none for the others |
| NodeStats.NodeGauges | internal/collector/node.go:94-108 | each gauge's value comes from its own field of the node's two answers |
| NodeStats.FailedNodeKeeps | internal/obsclient/dtstats.go:33-53 | which counts and which error the entry of a failed node holds |
| NodeStats.CollectNode | internal/collector/node.go:57-84 | the parallel pipeline gives what visiting the nodes one by one gives |
| NodeStats.PipelineIsSequential | internal/collector/node.go:67-108 | map, drop errors and flatten equals the sequential program |
| NodeStats.FourPerHealthyNode | internal/collector/node.go:94-108 | exactly four gauges per healthy node |
| NodeStats.FailureIsIsolated | internal/collector/node.go:94-108 | failing one node removes exactly its own gauges, from where they stood |
| Probe.Run.LocalZone | internal/collector/probe.go:66-85 | fetches on the first use only; later uses repeat its value or its error |
| Probe.Run.Nodes | internal/collector/probe.go:66-91 | the same for the node list |
| Probe.Run.CollectCluster | internal/collector/cluster.go:74-126 | fails only if the zone does; each readable field of the zone gives its gauge; the node list is best effort and decides version and product |
| Dashboard.ClusterLabels | internal/collector/cluster.go:74-126 | every cluster gauge carries the zone's name first; the last is the info gauge with the first node's version, and no other depends on the node list |
| Dashboard.ClusterGauges | internal/collector/cluster.go:83-119 | each cluster gauge is there, with its value, exactly if its own reading is, capacities in bytes |
| Dashboard.InfoGauge | internal/collector/cluster.go:116-147 | the info gauge has the first node's version, or "unknown", and the product its first two characters imply |
| Dashboard.GroupGauges | internal/collector/replication.go:60-84 | each gauge of a group is there, with its value, exactly if its own reading is |
| Dashboard.GroupsInOrder | internal/collector/replication.go:53-88 | the groups' gauges stand in group order, at most six each, each labelled with its own group and independent of the other groups |
| Probe.Run.CollectReplication | internal/collector/replication.go:53-88 | one request; its error, or each group's readable fields as gauges, group by group, the recovery point in seconds |
| Probe.RunProbe | internal/collector/probe.go:136-163 | a failed or unknown collector is recorded as such and the others run and register as they would; one outcome per requested name, in order |
| Probe.OutcomePerName | internal/collector/probe.go:140-159 | each collector's outcome is recorded under its own name, in order |
| Probe.RegisteredAround | internal/collector/probe.go:146-152 | what a collector yielded is registered in its place, and a failed one registers nothing |
| Probe.UnknownNameIsRecorded | internal/collector/probe.go:145-155 | a name that is none of the five is recorded as a failure and costs no call |
| Probe.ResultOfName | internal/collector/probe.go:142-159 | a collector's outcome is what it makes of the run as those before it left it |
| Probe.ClusterAsks | internal/collector/cluster.go:74-126 | cluster asks for localzone unless known, then for nodes unless known, and succeeds exactly if the zone came |
| Probe.ReplicationAsks | internal/collector/replication.go:53-88 | replication makes one request and gives its error or its groups' gauges |
| Probe.NodeAsks | internal/collector/node.go:57-84 | node asks for nothing if switched off, else for nodes unless known |
| Probe.NodeReports | internal/collector/node.go:67-108 | a node's four gauges stand in its place, under its management address, from that address's answers |
| Probe.MeteringAsks | internal/collector/metering.go:52-88 | metering asks for the namespaces and then for quota and billing of each, in order |
| Probe.NamespaceAdds | internal/collector/metering.go:70-83 | each namespace adds its own gauges, from its own two answers |
| Probe.PerfAsks | internal/collector/perf.go:228-322 | perf asks for localzone unless known and then makes its six queries |
| Probe.PerfMakes | internal/collector/perf.go:228-332 | perf fails with a failed query's error exactly if it has nothing to report and a query failed; its label is the zone's name or "unknown" |
| Probe.FetchedAtMostOnce | internal/collector/probe.go:66-91 | a probe fetches localzone at most once and nodes at most once, for any list of collectors |
| Probe.CallsBounded | internal/collector/probe.go:136-163 | a probe of distinct collectors listing N namespaces makes at most 10 + 2N authenticated calls, whatever the server answers |
| Probe.ExactCost | internal/collector/probe.go:136-163 | the exact number of calls: 1 for replication, 1 for metering, 6 for perf, 1 each for localzone and nodes if needed, 2 per namespace |
| Probe.DataRequestsOfProbe | internal/obsclient/auth.go:143-178 | run as protocol calls of a client that other scrapes share, in any interleaving, the probe's own calls send at most 2(10 + 2N) data requests |
| Probe.MemoisationIsInvisible | internal/collector/probe.go:66-91 | against a server whose answers do not change, every collector's outcome is that of a probe without memoisation |
| Probe.OneValueForAllReaders | internal/collector/probe.go:66-91 | even if the server's answers change, cluster, node and perf all read the one zone or zone error and the one node list or its error that were fetched |
| Probe.OneVdcLabel | internal/collector/perf.go:229-232 | cluster and perf label with the one zone the probe fetched |
| Probe.ClusterAndPerfAgree | internal/collector/perf.go:229-232 | whenever cluster succeeds, perf's metrics carry cluster's vdc label, even if the server's answers change during the probe |
| FluxDecode.FlattenFluxSeries | internal/obsclient/flux.go:73-116 | the loop over a last-index map refines the row-wise specification; no index is out of bounds |
| FluxDecode.CollectTags | internal/obsclient/flux.go:106-111 | the tags do not depend on the map's iteration order |
| FluxDecode.Query | internal/obsclient/flux.go:55-71 | the results of all series in order, or the error of the request |
| FluxDecode.LastIndexIsLast | internal/obsclient/flux.go:74-77 | a repeated column name stands for its last position |
| FluxDecode.OutputIsSubsequence | internal/obsclient/flux.go:84-115 | the output is the order-preserving subsequence of the rows whose last `_value` cell is in range and parses |
| FluxDecode.RowMeans | internal/obsclient/flux.go:85-113 | what a row's result holds, column by column: value, measurement, field and time are the last cells of their own columns, with their defaults |
| FluxDecode.TagsAreLastCells | internal/obsclient/flux.go:19-27 | the tags are exactly the columns, other than the seven meta columns by name, whose last index is in range, with that cell |
| FluxDecode.DecodeAllConcat | internal/obsclient/flux.go:66-70 | decoding a list of series is the concatenation of decoding its parts |
| FluxDecode.RowsMayBeReordered | internal/obsclient/flux.go:84-115 | reordering rows only reorders results |
| FluxDecode.SeriesMayBeReordered | internal/obsclient/flux.go:66-70 | reordering series only reorders results |
| FluxDecode.RoundTrip | internal/obsclient/flux.go:73-116 | any list of results that share their tag names, written under any fitting header and flattened, comes back unchanged and in order |
| FluxDuration.FluxDurationText | internal/collector/perf.go:118-146 | the builder's text is sign, hours, minutes and seconds of the int64 duration as rounded by Go |
| FluxDuration.RoundIsExact | internal/collector/perf.go:119 | below the limit Go's rounding is the nearest second, halves away from zero |
| FluxDuration.RoundSaturates | internal/collector/perf.go:119 | at and beyond the limit it saturates at the int64 extremes |
| FluxDuration.RoundedIsNearest | internal/collector/perf.go:119 | the rounded value is the one whole number of seconds within half a second, ties going away from zero |
| FluxDuration.TextReadsBack | internal/collector/perf.go:118-146 | read as a Flux duration literal, the text is the rounded duration if and only if that value fits int64 nanoseconds |
| FluxDuration.TextOfBottom | internal/collector/perf.go:125-128 | at the bottom the text is a lone minus sign, which is no literal |
| FluxDuration.TextOfTop | internal/collector/perf.go:130-145 | at the top the literal is a second short of the rounded value |
| FluxDuration.TextShape | internal/collector/perf.go:118-146 | hours, minutes and seconds in this order, without leading zeros, each left out if zero, "0s" for nothing; minutes and seconds below 60, the error at most half a second, and a range that passed the one-hour check prints at most one hour |
| FluxDuration.TextIsInjective | internal/collector/perf.go:118-146 | different rounded durations print differently |

## Left out

- HTTP, TLS, CA loading, timeouts, context cancellation and URL building (internal/obsclient/client.go): a request step succeeds or fails nondeterministically; of the failures of `New` only the empty target is named, the others are the event `NewFails`.
- JSON and XML decoding, `strconv.ParseFloat` and RFC 3339 parsing: opaque partial functions; a body that does not decode counts as a failed answer of the API call that asked for it.
- AuthClient.Client.CallAuthenticatedJSON: returns the body whose decoding succeeded, where the source fills `out`; which bodies decode is a parameter.
- ClientCache takes each critical section of a client as one atomic event; `AuthLocks.RunRefines` justifies this client by client, and there is no combined machine of all clients with explicit locks.
- Exporter.Exporter.GetOrCreateClient: models interference by other scrapes only at the point before `LoadOrStore` (the parameter `rival`); all interleavings are treated in `ClientCache`.
- Exporter.Exporter.LogoutAll: models the Range of a map that does not change meanwhile; in `ClientCache` the Range may also visit entries stored after it began.
- Probe.RunProbe: runs the goroutines of metering, perf and node in the order they are started, and reports the first failed query in that order; independence of the schedule is proved in `Metering`, `Perf` and `NodeStats`. The duration gauges are not produced.
- Probe.DataRequestsOfProbe: relates a probe's calls to protocol calls by their number alone, because the answers of the two models are of different types.
- Probe.Run.CollectCluster: a field of the dashboard's answer is a real number or absent; the accessors that read numbers from strings and take the first element of a list are not modelled.
- Probe.Run.CollectReplication: likewise.
- FluxDuration.TextReadsBack: the parser reads units of fixed length only, because a calendar month or year is no number of nanoseconds and the printer never writes one.
- FluxDecode.RoundTrip: assumes printers inverse to the number and time parsers on the values at hand, because the parsers are opaque.
- Perf.SumTPS: sums exact reals; float64 addition rounds and is not associative, and the infinities and NaN that `strconv.ParseFloat` accepts are no reals.
- The text of the six Flux queries, apart from their range: a query is known by its number.
- Prometheus registry, `MustRegister` on repeated collector names, and exposition: a metric is a record of name, labels and value.
- Flags, logging, the landing page, wall-clock durations, real token lifetimes, and process exit after the listener returns.
