# Portway: models and proofs

Portway is a reverse tunnel: clients keep a control session with a server,
publish TCP, UDP and HTTP proxies and Forward targets through it, and may join
a virtual network. Its server is a set of registries behind locks, with
generations, counters and resources that change hands. This project models
those registries in Dafny and proves what they keep in every run.

Every critical section is one atomic step. What happens between two critical
sections (I/O, timers, cancellation, another goroutine) can interleave in any
order. Methods of classes follow the source's updates, loop by loop, and are
proved against functions on values; the lemmas over runs are about those functions.
The modules named Laws say when each operation does what, both ways, in terms of
fields, of other tables and of what happened earlier in the run, without the
functions the operations are made of.

| module | what it is about |
|---|---|
| Authentication, Sessions, SessionRuns, SessionLaws, ReloadBarrier | Token generations, session records, and the barrier that keeps the two consistent across reloads |
| Reconnect | the client's reconnect loop and the server's registry as two parties with lost messages |
| LinkBroker, LinkLifecycle, LinkLaws | the link tables with their six counter maps, and the life of every link across its owners |
| UdpLimiter, UdpLaws | association accounting whose operations span two critical sections, and rate windows |
| ForwardRegistry, ForwardRuns, ForwardLaws | optimistic publication of Forward sets |
| SyncCache, SyncRuns, SyncLaws | replay protection of configuration syncs |
| ProxyRegistry, ProxyRuns, ProxyLaws, ProxyObjects | proxies, public routes, reservations, and who owns each endpoint and runtime |
| CoordinatedSync, ReplayRun | one commit for a proxy set and a Forward set, and what replays do to it |
| VNetPool, PoolLaws, VNetPolicy, VNetRouter, RouterLaws, PeerPairs, PeerLaws | channel pools, network configuration, flow table and peer handshake of the virtual network |
| Addresses, PortRanges, ForwardPolicy, ForwardSubsets | prefixes, port lists, Forward rules, and when the subset test is exact |
| Text, Versions | text order and SemVer precedence |
| Options, Counting | optional values, counter maps |

## What is taken for granted

- Session IDs, tickets, link IDs, binding IDs and pool identities are fresh when they are made; SHA-256 is injective, so a digest stands for what was digested.
- Times are naturals or integers read from a clock that does not run backwards where they are compared; generations, revisions and counters are unbounded.
- Client IDs contain no NUL: `^[A-Za-z0-9._-]{1,64}$` (internal/config/config.go:37). Keys joined with a NUL rely on it.
- A port is open at most once: listening takes it from a set the operating system keeps exclusive.
- Texts are parsed before they reach the model; a parsed value comes with the fact whether its text was canonical.

## Results that are not plain confirmations

- The claim that lost replies never make a resume fail is false if a hello is processed late. `Reconnect.LateHelloBreaksResume` and `Reconnect.UnreadWelcomeBreaksResume` are two such runs; the second shows that carrying the identity the client holds is not enough. The exact condition on a processed hello is `Reconnect.Harmless`: it is refused, it answers the attempt the client is waiting on, or it resumes with every session ID the client may still come to hold. `Reconnect.RunAgreesIff` proves it exact over whole runs, `Reconnect.OneInFlightIsHarmless` that one attempt in flight meets it.
- A new proxy generation is always published with its Forward set, but not the other way round: a sync that the proxy registry answers from its cache publishes its Forward set alone. `CoordinatedSync.ForwardPublishedIff` gives the exact condition, `CoordinatedSync.ReplayRevision` the revisions at a replay, and `ReplayRun.ReplayPublishesAlone` a run in which an older request's Forward set ends up beside newer proxies. `SyncRuns.NoReplayBehindServer` proves that the server's own check keeps every such request away as long as a session's syncs come one after the other through it; the managed rollout does not go through that check.
- In CoordinatedSync the content of one commit is in `CoordinatedSync.CommitSync`, which runs the two registries' tests in the source's order; the steps of the joint runs mirror that order, and `CoordinatedSync.AllOrNothing` and `CoordinatedSync.GenerationsComeInPairs` read the result off for runs.
- Preparing a Forward transaction is not free of effects: it reserves an empty set for a new session. No lookup can see it (`ForwardRuns.UnpublishedIsInvisible`).
- The purge of sessions after a reload is skipped when authentication did not change; that this is safe is `ReloadBarrier.UnchangedRevokesNothing`.
- The subset test for client Forward rules is sound but does not accept every harmless list. `ForwardSubsets.DecidesIff` gives the exact condition on the server's list; `ForwardSubsets.AdjacentRangesAreRefused` and `ForwardSubsets.HalvesAreRefused` are the two ways to miss it.
- The overlap test on base addresses is exact for all prefixes, aligned or not (`Addresses.BasesDetectOverlap`).

## Model

| member | source | states |
|---|---|---|
| `Authentication.NewSnapshot` | internal/authentication/authentication.go:54-65 | fails exactly on a repeated Token; otherwise files every record under its own credential, all of them and nothing else |
| `Authentication.Store.constructor` | internal/authentication/authentication.go:120-124 | the first snapshot is published with generation 1 on every record |
| `Authentication.Store.ReplaceRevoking` | internal/authentication/authentication.go:138-159 | publishes the candidate; a record with the same identity that is not revoked keeps its generation, every other one gets a generation never used before, each a different one |
| `Authentication.ReplacementKeepsExactly` | internal/authentication/authentication.go:138-159 | a current context stays current through one replacement if and only if the candidate has its record and it is not revoked |
| `Authentication.RevokedContextNeverReturns` | internal/authentication/authentication.go:69-159 | once an issued context stops being current no later sequence of replacements, whatever is removed, re-added or switched between modes, makes it current again |
| `Sessions.Registry.RegisterAuthenticated` | internal/session/registry.go:106-212 | registration, resume and refusal are decided as specified; the clients map afterwards holds exactly the registered, resumed or untouched records |
| `Sessions.Registry.Activate` | internal/session/registry.go:215-232 | activates only the owner of the current session inside its window, and changes that record only |
| `Sessions.Registry.Heartbeat` | internal/session/registry.go:271-295 | accepts only a greater sequence of the current session and reports whether it woke a suspended one |
| `Sessions.Registry.Disconnect` | internal/session/registry.go:306-320 | suspends the current session, keeping the time of a suspension already under way |
| `Sessions.Registry.Remove` | internal/session/registry.go:322-330 | removes the record of exactly that session |
| `Sessions.Registry.Sweep` | internal/session/registry.go:332-360 | every record is suspended, expired or kept as specified, and the two reports name exactly the suspended and the expired clients, each once |
| `Sessions.Registry.RevokeAuthentication` | internal/session/registry.go:235-269 | removes exactly the records whose authentication is revoked and reports each of them once |
| `SessionRuns.AlwaysCoherent` | internal/session/registry.go:106-360 | in every run an active record has no suspension time and a suspended one has it |
| `SessionRuns.AnchorHolds` | internal/session/registry.go:150-232 | no sequence of failed resumes and disconnects moves the time of the first suspension: until the client is active again in time or removed, it stands |
| `SessionRuns.RecoveryWindowCloses` | internal/session/registry.go:332-360 | a client suspended at a time is active again before that time plus one minute or is removed at the latest by the first sweep after it |
| `SessionRuns.HeartbeatsIncrease` | internal/session/registry.go:271-295 | the sequences of accepted heartbeats of one session strictly increase over every run |
| `SessionLaws.AcceptedIff` | internal/session/registry.go:106-212 | a hello is accepted if and only if it starts a session without claiming one and within capacity, or resumes a suspended record with one of its two IDs, as the same identity, within a minute; the record then remembers exactly that hello and since when it was suspended |
| `SessionLaws.RecordIsLastHello` | internal/session/registry.go:106-232 | in every run a record carries the session, connection and identity of the last hello accepted for the client and, until that session is activated, the session it resumed |
| `SessionLaws.TimeOfLastSign` | internal/session/registry.go:271-295 | in every run a record's heartbeat time is that of the last hello, activation or heartbeat accepted |
| `SessionLaws.SuspendedIff` | internal/session/registry.go:306-360 | in every run a client becomes suspended if and only if its own session disconnects or a sweep finds it active without such a sign for the timeout |
| `SessionLaws.ActiveIff` | internal/session/registry.go:215-295 | in every run a client becomes active if and only if its session is activated or a heartbeat wakes it, in time |
| `SessionLaws.GoneIff` | internal/session/registry.go:235-360 | in every run a record goes away if and only if its session is removed, its credential and generation are revoked, or a sweep finds its minute over |
| `SessionLaws.SequenceOfLastBeat` | internal/session/registry.go:271-295 | in every run the sequence to exceed is that of the last heartbeat accepted, or zero if a hello or an activation came after it |
| `ReloadBarrier.BuildAuthenticationSnapshot` | internal/config/authentication_files.go:14-49 | fails exactly when two identities are configured with one Token; a snapshot that is built holds the records of the configuration, all of them and no others |
| `ReloadBarrier.RevokedAuthenticationContexts` | internal/server/configuration_reload.go:405-435 | lists exactly the current contexts that the candidate drops or whose governed entry changed |
| `ReloadBarrier.Service.ApplyConfigurationCandidate` | internal/server/configuration_reload.go:98-198 | applies exactly a preparable candidate with a change and without a shared Token, and otherwise changes nothing; the sessions left are exactly those whose governed entry, managed Token or shared Token is configured as before |
| `ReloadBarrier.SurvivesIffNotRevoked` | internal/server/configuration_reload.go:119-179 | across a reload a current context stays current if and only if it is not in the revoked list |
| `ReloadBarrier.SurvivesIffUnaltered` | internal/server/configuration_reload.go:405-435 | across a reload a current context stays current if and only if the governed client's whole entry, the managed client's Token, or the shared Token is the same in both configurations |
| `ReloadBarrier.UnchangedRevokesNothing` | internal/server/configuration_reload.go:185-188 | when authentication did not change the revoked list is empty, so leaving out the purge loses nothing |
| `ReloadBarrier.PurgeIsExact` | internal/server/configuration_reload.go:179-198 | the purge removes exactly the sessions whose context is no longer current |
| `ReloadBarrier.StepKeepsInvariant` | internal/server/session_handshake.go:130-143 | every step of registrations that hold the barrier, of reloads and of unguarded registry calls keeps the system invariant |
| `ReloadBarrier.OpenBarrierMeansCurrent` | internal/server/configuration_reload.go:98-198 | in every interleaving, whenever the barrier is not held for writing every session record carries a context the store accepts |
| `ReloadBarrier.AcceptedMeansUnaltered` | internal/server/configuration_reload.go:98-198 | in every interleaving a context that is accepted at two moments was accepted in between, and what it stands for has not changed, not even there and back |
| `ReloadBarrier.SessionsKeepTheirEntries` | internal/server/configuration_reload.go:98-198 | a session found online twice with the same context has its entry or Token as it was, whatever was reloaded meanwhile |
| `Reconnect.ResumeSurvivesLostHellos` | internal/client/handshake.go:164-172 | however many replies are lost and hellos delayed: as long as no processed hello did harm, every session ID the client holds or may come to hold is the current or the previous one of its record, and its resume is not refused as a mismatch or as already online |
| `Reconnect.NoTwoImmediateRetries` | internal/client/reconnect.go:62-101 | two retries without a pause never follow each other, in any run |
| `Reconnect.RefusalIsExact` | internal/client/reconnect.go:82-101 | a forgotten session is given up and retried at once; a full server and a pending recovery are retried after a pause; every other refusal is final |
| `Reconnect.WelcomeIsExact` | internal/client/handshake.go:164-172 | an established session is adopted; a failed setup keeps the new ID of a resumed session and the old one otherwise |
| `Reconnect.DeliverAgreesIff` | internal/session/registry.go:106-212 | a processed hello leaves client and server in agreement if and only if it is refused, answers the attempt the client waits on, or resumes with everything the client may still come to hold |
| `Reconnect.RunAgreesIff` | internal/session/registry.go:106-212 | over whole runs the two sides always agreed if and only if every processed hello met that condition |
| `Reconnect.OneInFlightIsHarmless` | internal/client/handshake.go:164-172 | with one attempt in flight every hello meets it |
| `Reconnect.DisagreeingResumeIsRefused` | internal/session/registry.go:150-211 | without agreement a resume inside its window and with its own authentication is refused as a mismatch or as already online |
| `Reconnect.LateHelloBreaksResume` | internal/session/registry.go:143-211 | a run with a hello of an abandoned attempt that arrives late: the client is refused with resume_session_mismatch |
| `Reconnect.UnreadWelcomeBreaksResume` | internal/session/registry.go:143-211 | a second such run in which the late hello carries the very identity the client holds, while another one waits in an unread welcome |
| `LinkBroker.Broker.CreatePending` | internal/link/broker.go:257-308 | admits a link exactly when the broker is open and no limit is reached, and counts it in the three pending maps |
| `LinkBroker.Broker.ClaimBinding` | internal/link/broker.go:340-381 | a bind is rejected, finds the link expired and takes it out, or promotes it from the pending to the active table with both sets of counters |
| `LinkBroker.Broker.TakePending` | internal/link/broker.go:471-494 | takes a pending link out once and returns it to its new owner |
| `LinkBroker.Broker.FinishActive` | internal/link/broker.go:646-657 | removes an active link once and says whether its reservation is to be closed |
| `LinkBroker.CountersAreExact` | internal/link/broker.go:680-718 | under the invariant each of the six counters equals the number of pending or of all links with that key |
| `LinkBroker.StepKeepsInvariant` | internal/link/broker.go:659-718 | every admission, promotion, expiry, cancellation and finish keeps the six maps equal to the counts over the tables, keys present exactly when positive, and keeps all limits |
| `LinkBroker.CountersAndLimitsAlongRun` | internal/link/broker.go:257-296 | in every reachable state the six maps are exact and the bounds 1024, 4096, 128/512 per client, 64/256 per binding and MaxActiveLinks per client and direction hold |
| `LinkBroker.ClosedAdmitsNothing` | internal/link/broker.go:623-644 | after closing no link is ever added |
| `LinkLaws.BoundIff` | internal/link/broker.go:340-381 | a bind succeeds if and only if its link is pending, not expired, and the ticket, client, session, type, binding, authentication and direction are the link's own; an expired link is taken out whatever is presented |
| `LinkLaws.ActiveWasBound` | internal/link/broker.go:340-381 | in every run each active link is held by a connection that bound it, after it was created and before its expiry, presenting all of that |
| `LinkLaws.ServedOnlyIfAcknowledged` | internal/link/broker.go:382-449 | in every run a link is served only if its acknowledgement reached the client, and fails only because preparing its handler or acknowledging it failed |
| `LinkLaws.KeysSeparate` | internal/link/broker.go:704-710 | two links are counted under one key exactly if they are of the same client and, where it matters, of the same binding or direction |
| `LinkLaws.RefusedIffNoRoom` | internal/link/broker.go:659-718 | in every run a link is refused if and only if the broker is closed or the links there are have reached one of the limits |
| `LinkLifecycle.OwnersAreExclusive` | internal/link/broker.go:340-449 | over every link's life the reservation is closed at most once and never activated after closing, the ready channel gets at most one result, and onCancel and the handler exclude each other |
| `LinkLifecycle.SendsNeverBlock` | internal/link/broker.go:471-531 | every send on a ready channel finds it empty |
| `LinkLifecycle.GoneLinksAreSettled` | internal/link/broker.go:382-449 | a link that has left has had its reservation closed exactly once, its ready channel answered exactly once, and exactly one of onCancel and handler, and is in no table |
| `LinkLifecycle.ExitIsFinal` | internal/link/broker.go:471-531 | a link that left by one exit path never changes again |
| `LinkLifecycle.AlwaysOnTheWayOut` | internal/link/broker.go:646-657 | from every stage the link's timer or owner can take a step that brings it closer to its exit |
| `UdpLimiter.Limiter.Acquire` | internal/proxy/udp/limiter.go:102-139 | admits exactly when no limit and no rate quota is reached, and then credits one pending place in every counter; otherwise only expired rate counters change |
| `UdpLimiter.Limiter.CleanupRates` | internal/proxy/udp/limiter.go:141-157 | drops exactly the counters of other windows |
| `UdpLimiter.AssociationLease.BeginActivate` | internal/proxy/udp/limiter.go:186-193 | first section of Activate: the lease gives up its pending mark once |
| `UdpLimiter.AssociationLease.FinishActivate` | internal/proxy/udp/limiter.go:195-200 | second section of Activate: returns exactly the pending place |
| `UdpLimiter.AssociationLease.ReserveQueue` | internal/proxy/udp/limiter.go:203-218 | reserves bytes exactly when both limits allow, on the lease and on the limiter alike |
| `UdpLimiter.AssociationLease.ReleaseQueue` | internal/proxy/udp/limiter.go:221-232 | returns bytes unless the lease is closed |
| `UdpLimiter.AssociationLease.BeginClose` | internal/proxy/udp/limiter.go:235-245 | first section of Close: once, with the amounts it will return |
| `UdpLimiter.AssociationLease.FinishClose` | internal/proxy/udp/limiter.go:247-261 | second section of Close: returns exactly those amounts from every counter |
| `UdpLimiter.StepKeepsInvariant` | internal/proxy/udp/limiter.go:102-261 | every critical section keeps each counter equal to the sum over open leases and operations in flight |
| `UdpLimiter.ConservationAlongRun` | internal/proxy/udp/limiter.go:186-261 | in every interleaving, with operations stopped between their two sections and the configuration changing, total, pending, queued bytes and the five maps equal the sums over open leases plus what the operations in flight hold |
| `UdpLimiter.QuiescentBooks` | internal/proxy/udp/limiter.go:186-261 | no total is ever negative, and with nothing in flight the counters are those of the open leases alone |
| `UdpLimiter.ClampNeverHides` | internal/proxy/udp/limiter.go:263-269 | every second section lowers only positive counters, so the clamp in decrement never hides a mismatch |
| `UdpLimiter.LimitsAlongRun` | internal/proxy/udp/limiter.go:108-120 | while the configuration stays, no interleaving exceeds any capacity or queue limit |
| `UdpLimiter.CountersRemember` | internal/proxy/udp/limiter.go:141-183 | every rate counter shows exactly the admissions of the window it is asked about, whatever cleanup dropped |
| `UdpLimiter.QuotasHold` | internal/proxy/udp/limiter.go:159-183 | with a clock that does not run backwards no second admits more than the quota, for everyone, per client and per proxy |
| `UdpLaws.AdmittedIffEntitled` | internal/proxy/udp/limiter.go:102-183 | counters, windows and cleanup refine the plain rule: an attempt is admitted if and only if there is capacity and fewer than each quota were admitted in its second, counted over the whole history |
| `UdpLaws.AdmittedIff` | internal/proxy/udp/limiter.go:159-183 | the same, said of the admissions the limiter made |
| `UdpLaws.AcquiredIff` | internal/proxy/udp/limiter.go:108-120 | in every run an association is acquired if and only if the rates allow it and the places held, in all, by the client, the proxy and the source, and the pending ones, are below their limits |
| `UdpLaws.PlacesAre` | internal/proxy/udp/limiter.go:186-261 | who holds a place and who a pending place: open leases and the operations between their two sections |
| `UdpLaws.ReservedIff` | internal/proxy/udp/limiter.go:203-218 | in every run bytes are reserved if and only if the lease is open and what it and what all have queued leaves room |
| `UdpLaws.ReleaseIsExact` | internal/proxy/udp/limiter.go:221-232 | released bytes go back on both sides unless the lease is closed |
| `UdpLaws.ActivationIsExact` | internal/proxy/udp/limiter.go:186-193 | exactly an open pending lease starts an activation |
| `UdpLaws.ActivationEnds` | internal/proxy/udp/limiter.go:195-200 | which gives back one pending place and nothing else |
| `UdpLaws.ClosingIsExact` | internal/proxy/udp/limiter.go:235-245 | exactly an open lease starts a closing |
| `UdpLaws.ClosingEnds` | internal/proxy/udp/limiter.go:247-261 | which gives back its place, its pending place if it had one, and its bytes |
| `UdpLaws.ProxyKeysSeparate` | internal/proxy/udp/limiter.go:104-104 | the limits per proxy are per client and proxy name |
| `ForwardRegistry.Validate` | internal/forward/registry/registry.go:140-169 | accepts exactly complete declarations within the limit, well formed, without repeated names and configured by the policy; otherwise blames the first declaration at fault, with the reason |
| `ForwardRegistry.Registry.BeginSync` | internal/forward/registry/sync_transaction.go:24-84 | prepares one binding a declaration over the session's current set, reserving an empty set for a new session, or changes nothing |
| `ForwardRegistry.Registry.Remove` | internal/forward/registry/registry.go:275-286 | removes the session's set and hands exactly its bindings over for cancellation |
| `ForwardRegistry.Registry.ApplyPolicy` | internal/forward/registry/registry.go:290-331 | every published binding gets the activity the policy grants and membership stays; exactly the links of changed or inactive bindings are cancelled, and each session gets exactly the notices of its bindings, a revocation before the activation |
| `ForwardRegistry.NoticesSynchronize` | internal/forward/registry/registry.go:300-326 | a client in step with its bindings is in step with the new policy once it has handled the notices, and the links of every revoked binding are cancelled |
| `ForwardRegistry.Registry.Close` | internal/forward/registry/registry.go:334-345 | closed and empty, with exactly the bindings there were handed over for cancellation |
| `ForwardRegistry.SyncTransaction.CommitWith` | internal/forward/registry/sync_transaction.go:107-139 | publishes exactly if the registry is open, the observed set is still the session's, the policy still agrees and the companion accepts; otherwise the published sets stay |
| `ForwardRegistry.SyncTransaction.Retire` | internal/forward/registry/sync_transaction.go:142-148 | hands the replaced bindings over once |
| `ForwardRuns.AtMostOneCommits` | internal/forward/registry/sync_transaction.go:107-139 | of all transactions prepared over one set of a session at most one ever commits, and a transaction commits at most once |
| `ForwardRuns.NoneAfterRemove` | internal/forward/registry/sync_transaction.go:113-117 | a transaction begun before its session was removed never commits afterwards, also if the session is back |
| `ForwardRuns.NoneAfterClose` | internal/forward/registry/sync_transaction.go:113-117 | nothing commits after Close |
| `ForwardRuns.UnpublishedIsInvisible` | internal/forward/registry/sync_transaction.go:42-48 | preparing, failing to commit and rolling back change no lookup, although preparing reserves an empty set |
| `ForwardRuns.CommitShowsPrepared` | internal/forward/registry/sync_transaction.go:130-138 | a commit shows exactly the prepared set to its session and changes nothing for any other |
| `ForwardRuns.PolicyStaysInForce` | internal/forward/registry/sync_transaction.go:118-125 | once a policy is applied every published binding agrees with it, and no commit, however stale its preparation, brings in one that does not |
| `ForwardLaws.CommitsIff` | internal/forward/registry/sync_transaction.go:107-139 | in every run a transaction that was not given up commits if and only if its companion accepts, the policy grants its bindings as when they were prepared, and since it began the session was not removed, no other transaction of it committed and the registry was not closed |
| `ForwardLaws.BeginsIff` | internal/forward/registry/registry.go:140-169 | a transaction begins if and only if the registry is open and there are at most 128 declarations with different names, each a canonical target with a port over TCP or UDP that the policy knows |
| `ForwardLaws.GivenUpForGood` | internal/forward/registry/sync_transaction.go:107-160 | a transaction that was rolled back, failed or committed never commits again |
| `ForwardLaws.RemovalIsExact` | internal/forward/registry/registry.go:275-345 | removing hides exactly that session's bindings, closing all |
| `SyncCache.CachedStaysTidy` | internal/proxy/registry/sync_result.go:9-24 | the cache map and its order list hold the same distinct IDs, at most sixteen |
| `SyncCache.ConfigurationSyncs.CheckConfigurationSync` | internal/server/configuration_sync_cache.go:31-76 | replays, refuses or lets through as the revision and cache rules say; a session without a state lets everything through |
| `SyncCache.ConfigurationSyncs.CacheConfigurationSync` | internal/server/configuration_sync_cache.go:78-109 | stores the request, evicting the oldest of sixteen, and stays tidy |
| `SyncRuns.RevisionsIncrease` | internal/proxy/registry/sync.go:83-119 | however syncs of one session overlap, the revisions applied strictly increase |
| `SyncRuns.ReplayOfApplied` | internal/proxy/registry/sync.go:83-119 | a replay of any applied request gets its own stored result while it is among the last sixteen and a refusal afterwards; it is never let through |
| `SyncRuns.ReplaysAreGenuine` | internal/proxy/registry/sync.go:83-111 | whatever is answered from the cache was applied with that revision and payload and that result |
| `SyncRuns.OvertakenIsDropped` | internal/proxy/registry/sync_commit.go:60-69 | a sync in flight whose revision has been reached meanwhile is not applied again |
| `SyncLaws.VerdictIff` | internal/proxy/registry/sync.go:83-119 | in every run a request is let through if and only if its ID is not among the last sixteen and its revision is beyond all applied ones, and answered if and only if it equals the one applied under its ID or, if that is not recent, the last one |
| `SyncLaws.AppliedIff` | internal/proxy/registry/sync_commit.go:60-69 | in every run a sync that was let through is applied if and only if the other tests pass and nothing was applied since it arrived |
| `SyncRuns.NoReplayBehindServer` | internal/server/configuration_sync.go:39-51 | in a session whose syncs come one after the other through the server no request reaches the proxy registry's replay: the server's own check answers or refuses it first |
| `ProxyRegistry.ValidateDeclarations` | internal/proxy/registry/validation.go:8-91 | accepts exactly well-formed declarations without a repeated name, port or domain |
| `ProxyObjects.Registry.AttachAuthenticated` | internal/proxy/registry/registry.go:289-320 | starts a session on the client's record, resetting revision and cache and keeping its proxies |
| `ProxyObjects.Registry.CheckSync` | internal/proxy/registry/sync.go:63-272 | replays, fails or prepares exactly as specified, a failure with the code of the first test that fails; a preparation records what was observed and which endpoints are the client's own |
| `ProxyObjects.PrepareSyncEndpoints` | internal/proxy/registry/sync_prepare.go:14-77 | listens on exactly the declared ports that cannot be reused, and succeeds exactly if the system grants all of them; what was opened before a refusal is left to the rollback |
| `ProxyObjects.BuildCandidates` | internal/proxy/registry/sync.go:290-421 | builds exactly one binding a declaration: an unchanged proxy of the same session keeps its binding, every other gets a new one on a reused or newly opened endpoint |
| `ProxyObjects.PublishLoops` | internal/proxy/registry/sync_commit.go:120-215 | the loops over old and new bindings replace exactly the old routes and endpoints by the new ones and retire exactly what is no longer used |
| `ProxyObjects.Registry.PublishSync` | internal/proxy/registry/sync_commit.go:34-237 | publishes the prepared set exactly if session, revision, reservations, reused endpoints and domains are as observed, or changes nothing |
| `ProxyObjects.Registry.Detach` | internal/proxy/registry/lifecycle.go:76-149 | withdraws exactly the session's routes and endpoints and retires everything they held |
| `ProxyObjects.Registry.Close` | internal/proxy/registry/lifecycle.go:152-196 | empties the tables and retires exactly the endpoints, UDP bindings and HTTP bindings there were |
| `ProxyObjects.Registry.BeginReservations` | internal/proxy/registry/reservations.go:34-157 | accepts a candidate only if no route is claimed twice and every bound route is bound by the managed client it is reserved for; otherwise one of the two fails |
| `ProxyRuns.PublishKeepsInverse` | internal/proxy/registry/sync_commit.go:70-221 | publishing a prepared set leaves the route tables exactly inverse to the clients' proxy maps |
| `ProxyRuns.PublishRespects` | internal/proxy/registry/reservations.go:206-245 | publishing puts no binding on a route reserved for someone else |
| `ProxyRuns.ListeningIsFree` | internal/proxy/registry/sync_prepare.go:14-77 | a port a sync listens on has no endpoint in the registry, because it cannot be open twice |
| `ProxyRuns.RoutesAlongRun` | internal/proxy/registry/lifecycle.go:76-196 | in every interleaving the route tables are exactly the inverse of the proxy maps and no binding on a reserved route belongs to another client |
| `ProxyRuns.CachesAlongRun` | internal/proxy/registry/sync_result.go:9-24 | in every interleaving each client's cache is tidy, and a sync that passes the publication tests has a greater revision than the one applied last and a request ID that is not cached |
| `ProxyRuns.ClosedAtMostOnce` | internal/proxy/registry/sync_rollback.go:20-31 | every endpoint and every UDP or HTTP runtime is closed at most once, and never while it is published or being prepared; nothing is both |
| `ProxyRuns.NothingLeaks` | internal/proxy/registry/sync_publication.go:17-47 | what has not been closed is published, being prepared or waiting to be retired |
| `ProxyRuns.RollbackSparesPublished` | internal/proxy/registry/sync_rollback.go:20-31 | rolling back closes everything the sync made, for the first time, and nothing that is published |
| `ProxyLaws.ProxiesAreAsRequested` | internal/proxy/registry/sync.go:290-421 | in every run a client that has applied a revision has exactly the bindings a request of its session with that revision and payload asked for: each with the session's own ID and the declared name, route and schemes |
| `ProxyLaws.BindingSurvivesIff` | internal/proxy/registry/sync.go:290-421 | in every run a publication leaves a binding the identical one if and only if it was already of this session and declaration; the result tells so, and for TCP whether the declaration was there in any session |
| `ProxyLaws.PublishedIff` | internal/proxy/registry/sync_commit.go:60-120 | in every run a built sync is published if and only if its session stands at the observed revision and no declared route is reserved for, or as a domain taken by, another; the endpoints it reuses cannot have gone |
| `ProxyLaws.GoesAheadIff` | internal/proxy/registry/sync.go:63-272 | in every run a sync goes ahead if and only if the session is the client's current one, the cache neither answers nor refuses the request, it asks for at most 128 valid proxies on different routes, and no declared route is reserved for, or as a port held by, another |
| `ProxyLaws.LeavingIsExact` | internal/proxy/registry/lifecycle.go:76-196 | in every run a client leaves if and only if its current session detaches or the registry closes, and then nothing leads to it |
| `ProxyLaws.AttachIsExact` | internal/proxy/registry/registry.go:289-320 | a new session takes the proxies over as they are, with nothing applied |
| `ProxyLaws.ReservingIsExact` | internal/proxy/registry/reservations.go:34-157 | reservations are prepared if and only if every bound route among them is bound by the managed client it is reserved for, and come into force when committed |
| `CoordinatedSync.CandidateResources.Rollback` | internal/proxy/registry/sync_rollback.go:20-26 | closes what is still owned and owns nothing afterwards |
| `CoordinatedSync.CommitSync` | internal/proxy/registry/sync_publication.go:17-47 | both sets are published if and only if both registries' tests pass, otherwise both stay; what the sync made is handed over or closed exactly once |
| `CoordinatedSync.CoordinateCachedSync` | internal/proxy/registry/sync_publication.go:10-15 | a replayed result stands if and only if the Forward set was published; the proxies are not touched |
| `CoordinatedSync.AllOrNothing` | internal/forward/registry/sync_transaction.go:107-139 | a coordinated commit publishes both generations exactly if both tests pass, and otherwise leaves both tables and every lookup as they were |
| `CoordinatedSync.GenerationsComeInPairs` | internal/proxy/registry/sync_publication.go:17-34 | an attached client gets another proxy set or revision exactly in a coordinated publication of its own, which publishes its Forward set too |
| `CoordinatedSync.ForwardPublishedIff` | internal/proxy/registry/sync_publication.go:10-47 | the Forward set of an open transaction becomes published exactly by a coordinated publication that passes both tests or by a replay that passes the Forward test |
| `CoordinatedSync.ReplayRevision` | internal/proxy/registry/sync.go:83-111 | in every run a replay is of a request the proxy registry applied, and as long as its session is attached the proxies carry the revision they had when it was answered: the request's own or a newer one |
| `ReplayRun.ReplayPublishesAlone` | internal/proxy/registry/sync.go:83-111 | a run from the start that ends with an older request's Forward set published beside newer proxies |
| `CoordinatedSync.AtMostOnePublishes` | internal/forward/registry/sync_transaction.go:113-117 | of the syncs prepared over one Forward set at most one publishes it, with its proxies or as a replay |
| `CoordinatedSync.BothInvariants` | internal/proxy/registry/sync_publication.go:17-47 | both registries keep their invariants in every joint run |
| `VNetPool.PoolBroker.Prepare` | internal/vnet/pool.go:81-126 | the new entry replaces the client's pending one, which is handed over for closing; a closed broker discards the new one |
| `VNetPool.PoolBroker.ClaimChannel` | internal/vnet/pool.go:142-160 | claims exactly an unclaimed channel of the pending pool the binding matches, with its ticket and in time |
| `VNetPool.PoolBroker.FinishBind` | internal/vnet/pool.go:172-193 | marks the channel ready only if the very pool is still pending, and activates the pool when the last one is |
| `VNetPool.PoolBroker.RemoveGeneration` | internal/vnet/pool.go:253-274 | takes out the pending and the active pool of exactly that session and generation |
| `VNetPool.PoolBroker.Expire` | internal/vnet/pool.go:276-286 | takes out the pending pool of exactly that generation |
| `VNetPool.PoolBroker.Close` | internal/vnet/pool.go:213-237 | takes out everything, once |
| `VNetPool.DoneClosedAtMostOnce` | internal/vnet/pool.go:332-343 | the done channel shared by a pending pool and its pool is closed at most once, though each has its own Once |
| `VNetPool.ConnectionsHaveOneOwner` | internal/vnet/pool.go:361-397 | every claimed connection is in one channel of one pool and is closed exactly as often as that pool's done channel, at most once |
| `VNetPool.NoActivationDuringBind` | internal/vnet/pool.go:161-191 | no pool is activated while one of its binds is between claim and acknowledgement |
| `VNetPool.ActiveWasFullyAcknowledged` | internal/vnet/pool.go:178-191 | for every index of an active pool some earlier step acknowledged a bind of exactly that channel of that pool |
| `PoolLaws.ClaimsIff` | internal/vnet/pool.go:142-160 | a bind claims a channel if and only if the client's pending pool has it unclaimed and in time, and the ticket and everything the pool was prepared with is presented |
| `PoolLaws.HolderPresentedTicket` | internal/vnet/pool.go:142-160 | in every run whoever holds a channel claimed it in time with the ticket issued for that channel when the pool was prepared, and with the pool's own identity |
| `PoolLaws.PreparationIsExact` | internal/vnet/pool.go:81-126 | a valid pool becomes the pending one with unclaimed channels and their tickets, replacing the old one |
| `PoolLaws.FinishedIff` | internal/vnet/pool.go:172-193 | a channel becomes ready if and only if the claimed pool is still pending, in time and not cancelled, and the pool becomes active if and only if it was the last |
| `PoolLaws.RemovalIsExact` | internal/vnet/pool.go:253-274 | no pool of that session and generation is left to the client, and every other stays |
| `PoolLaws.ExpiryIsExact` | internal/vnet/pool.go:276-286 | an expiry takes exactly the pending pool of that generation |
| `PoolLaws.ClosingIsExact` | internal/vnet/pool.go:213-237 | closing leaves no pool, and all pending ones to be closed |
| `VNetRouter.KeysIdentifyConversations` | internal/vnet/packet/key.go:13-27 | two packets have one key exactly if they are of one conversation, in either direction |
| `VNetRouter.Router.RemoveFlow` | internal/vnet/router.go:308-325 | removes a flow and keeps the node and pair counters exact, a flow of a node to itself counted once |
| `VNetRouter.Router.RemoveExpired` | internal/vnet/router.go:295-306 | removes only expired flows, and all of them if the limit covers the table |
| `VNetRouter.Router.RouteLocked` | internal/vnet/router.go:199-286 | delivers or rejects as specified, for each of the three answers of flow admission, and keeps the counters exact |
| `VNetRouter.Router.RouteClientPacket` | internal/vnet/router.go:148-165 | routes only packets whose source address the client owns |
| `VNetRouter.Router.RouteServerPacket` | internal/vnet/router.go:185-197 | routes only packets from the server's address |
| `VNetRouter.Router.ApplyPolicy` | internal/vnet/router.go:107-128 | replaces the policy and ends exactly the flows it no longer authorizes |
| `VNetRouter.Router.RemoveClient` | internal/vnet/router.go:131-145 | ends exactly the flows that touch the client's address |
| `VNetRouter.FlowsAgreeWithPolicy` | internal/vnet/router.go:107-145 | after any run every flow joins two nodes of the current policy and has a service it allows, a disabled policy has no flows, and the bounds on flows, per node and per pair hold |
| `VNetRouter.FlowWasOpened` | internal/vnet/router.go:199-286 | every flow in the table was opened by an earlier delivered packet of that conversation, from the address its sender owned, with a service the policy of that moment allowed and a SYN if TCP; it has been in the table with that service ever since |
| `VNetRouter.DeliveredBelongsToFlow` | internal/vnet/router.go:199-286 | every delivered packet is an allowed first packet, or belongs to such a flow, which still joins the same two clients and whose service the current policy allows |
| `VNetRouter.FlowsKeepTheirOwners` | internal/vnet/router.go:116-125 | a flow that stays in the table keeps the clients at both ends |
| `RouterLaws.DeliveredToOwner` | internal/vnet/router.go:199-286 | in every run a delivered packet goes to its destination address under the router's generation: to the server if it is the server's address, otherwise to the client the policy gives it to |
| `RouterLaws.DeliveredIff` | internal/vnet/router.go:199-286 | in every run a packet is delivered if and only if its sender owns the source, the network is enabled, the destination is a node, and it belongs to an unexpired conversation or may start one: an allowed service, a SYN if TCP, admitted, and room in the table, at both nodes and for the pair |
| `RouterLaws.DeliveredKeepsAlive` | internal/vnet/router.go:264-273 | a delivered packet extends its conversation by five minutes for TCP and one for UDP, and a reset ends it |
| `RouterLaws.PolicyKeepsIff` | internal/vnet/router.go:107-128 | in every run a new policy keeps a flow if and only if it authorizes its nodes and service and both nodes are the same clients' |
| `RouterLaws.RemovalIsExact` | internal/vnet/router.go:131-145 | removing a client ends exactly the flows at its address |
| `Addresses.PrefixIsInterval` | internal/config/vnetwork.go:138-144 | an aligned prefix contains exactly the addresses from its base to its base with all host bits set |
| `VNetPolicy.UsableIsInterior` | internal/config/vnetwork.go:129-143 | the usable hosts are those strictly between the network and the broadcast address |
| `VNetPolicy.PrivateIsThreeBlocks` | internal/config/vnetwork.go:27-27 | the private test accepts exactly the three private address blocks of RFC 1918 |
| `VNetPolicy.ParseVNetHost` | internal/config/vnetwork.go:124-136 | accepts exactly canonical IPv4 texts of usable hosts |
| `VNetPolicy.ValidateVirtualNetworkConfig` | internal/config/vnetwork.go:17-80 | accepts exactly valid networks: private aligned prefix, usable distinct addresses, distinct client IDs, sorted ports, a port when enabled |
| `VNetPolicy.BuildRoutingPolicy` | internal/vnet/router.go:327-355 | succeeds exactly on distinct IPv4 nodes, and then byClientID and byIP are inverse on the nodes and hold exactly them |
| `VNetPolicy.ValidatedIsBuildable` | internal/config/vnetwork.go:17-80 | every configuration the validator accepts is accepted by the router |
| `VNetPolicy.ValidatedIsSearchable` | internal/config/vnetwork.go:113-118 | in the policy of a validated configuration every port list is sorted |
| `VNetPolicy.EndpointAllows` | internal/vnet/router.go:370-381 | the lookup equals membership in the endpoint's list for the protocol |
| `PortRanges.ValidateSortedPortRanges` | internal/config/forward.go:117-129 | accepts exactly lists of valid ranges of which any two are ordered and disjoint, though it compares neighbours |
| `PortRanges.PortRangesAreSubset` | internal/config/forward.go:250-264 | true exactly if every child range lies in one parent range |
| `PortRanges.PortAllowed` | internal/vnet/router.go:370-381 | on a validated list the binary search equals linear membership for every port |
| `Addresses.BasesDetectOverlap` | internal/config/forward.go:101-111 | two prefixes share an address if and only if one contains the other's base |
| `ForwardPolicy.ValidateForwardRules` | internal/config/forward.go:79-115 | accepts exactly well-formed rules of which no two share an address |
| `ForwardPolicy.MatchingForwardRule` | internal/config/forward.go:143-175 | the first rule whose range has the address decides |
| `ForwardPolicy.MatchingFinds` | internal/config/forward.go:143-175 | on an unambiguous list a rule is found if and only if some rule has the address and the port, and it is such a rule |
| `ForwardPolicy.OrderDoesNotMatter` | internal/config/forward.go:142-175 | two validated lists of the same rules in any order match every target to the same rule |
| `ForwardPolicy.ValidateForwardRuleSubset` | internal/config/forward.go:223-248 | accepts exactly if every child rule is covered by one server rule |
| `ForwardPolicy.SubsetIsSound` | internal/config/forward.go:223-264 | every target an accepted child list allows is allowed by the server's list |
| `ForwardSubsets.DecidesIff` | internal/config/forward.go:223-264 | for a valid server list the test accepts exactly the harmless client lists, whatever they are, if and only if its port ranges have gaps and no prefix is split into two rules with a common port |
| `ForwardSubsets.SubsetTestIsExact` | internal/config/forward.go:223-264 | for one client list gaps are enough if no server range inside a client range is finer than it |
| `ForwardSubsets.AdjacentRangesAreRefused` | internal/config/forward.go:250-264 | wherever two server ranges are adjacent the harmless client rule over both is refused |
| `ForwardSubsets.HalvesAreRefused` | internal/config/forward.go:223-248 | wherever two server rules are for the halves of a prefix and share a port the harmless client rule for the whole is refused |
| `ForwardSubsets.OneRuleHasAll` | internal/config/forward.go:223-248 | where nothing is split, a port that is allowed at every address of a prefix is allowed by one rule that has the whole prefix |
| `PortRanges.IntervalInOneRange` | internal/config/forward.go:250-264 | in a list with gaps an interval of allowed ports lies in one range |
| `PeerPairs.KeyIsSymmetric` | internal/server/vnetwork_peer.go:403-407 | a pair's key does not depend on who asks and names its two clients |
| `PeerPairs.Coordinator.OfferPeer` | internal/server/vnetwork_peer.go:140-185 | offers a new generation exactly if the pair is absent or its retry delay is over, the bounds allow it and both sides are eligible |
| `PeerPairs.Coordinator.PeerStatus` | internal/server/vnetwork_peer.go:226-277 | a ready report of the current generation counts, and activates exactly if it completes the pair; a failure report fails the pair; anything else changes nothing |
| `PeerPairs.Coordinator.FailPeerPair` | internal/server/vnetwork_peer.go:318-334 | fails exactly the named generation, once |
| `PeerPairs.Coordinator.RevokePeers` | internal/server/vnetwork_peer.go:354-364 | removes exactly the client's pairs, or all |
| `PeerPairs.Coordinator.ExpirePeerPairs` | internal/server/vnetwork_peer.go:371-383 | removes pairs whose retry delay is over and fails inactive offers that ran out |
| `PeerPairs.PairsAlongRun` | internal/server/vnetwork_peer.go:140-185 | in every run at most 4096 pairs exist and at most 64 per client, and an active pair has both sides ready and no retry delay |
| `PeerPairs.ActivatedAtMostOnce` | internal/server/vnetwork_peer.go:254-259 | each generation is activated at most once |
| `PeerPairs.NoActivationAfterEnd` | internal/server/vnetwork_peer.go:245-259 | a generation that failed, was revoked or replaced is never activated |
| `PeerPairs.OldReportsChangeNothing` | internal/server/vnetwork_peer.go:231-234 | reports and failures of another generation than the pair's own change nothing |
| `PeerPairs.ActivationNeedsBoth` | internal/server/vnetwork_peer.go:226-259 | in every run a generation is activated by a ready report of that generation, and by then each of the two sides has reported ready in it, in time |
| `PeerLaws.OfferedIff` | internal/server/vnetwork_peer.go:140-185 | a pair is offered if and only if both are eligible and it is new within the bounds or its retry delay is over; the offer has a new generation, nobody ready, and fifteen seconds |
| `PeerLaws.ReportsIff` | internal/server/vnetwork_peer.go:226-277 | a ready report counts if and only if it is of the current session, names the standing generation and is in time; a late one fails the pair |
| `PeerLaws.ReadyIffReported` | internal/server/vnetwork_peer.go:231-259 | in every run the sides marked ready are exactly those that reported ready in the standing generation |
| `PeerLaws.ActiveIffBothReported` | internal/server/vnetwork_peer.go:254-259 | in every run a standing generation is active if and only if both sides reported ready in it |
| `PeerLaws.RevocationIsExact` | internal/server/vnetwork_peer.go:354-364 | no pair of a revoked client is left on either side, and every other pair stays as it is |
| `PeerLaws.ExpiryIsExact` | internal/server/vnetwork_peer.go:371-383 | a pair is dropped exactly when its retry delay is over and fails exactly when an offer runs out |
| `PeerLaws.FailureIsExact` | internal/server/vnetwork_peer.go:318-334 | a failure ends exactly the named standing generation, for ten seconds |
| `Versions.ParseInvertsRender` | internal/client/server_version.go:30-37 | the accepted texts are exactly the rendered versions, each accepted as the version it renders |
| `Versions.NumbersCompareByValue` | internal/client/server_version.go:93-100 | length and then text is the numeric order for digit strings of any size |
| `Versions.VersionsAreOrdered` | internal/client/server_version.go:30-79 | on comparable versions the comparison is antisymmetric and transitive, and zero exactly on texts that differ at most in the v and the build metadata |
| `Versions.ComparisonFollowsSemVer` | internal/client/server_version.go:45-79 | the comparison is below zero exactly when section 11 of SemVer 2.0.0 gives lower precedence |

## Left out

- Sockets, TLS, QUIC, framing, certificates, YAML and JSON decoding, logging, metrics and statistics snapshots: input and output, or wrappers around libraries.
- Mirror groups and mirror TCP sessions: their tables are empty in the proxy registry model, and so are the branches that look into them.
- CancelSession, CancelBinding and Close of the link broker: they collect a snapshot and cancel afterwards; the single cancellations are steps of the model, the collecting loops are not members of it, and nothing is claimed about links promoted in between.
- Managed rollout: how managed revisions are derived and whether every higher one is accepted; only its use of the coordinated commit is covered.
- Backoff delays and jitter of the reconnect loop: only whether a retry pauses is modelled; a client that holds no session ID can still be refused as already online.
- Failure of the random source while IDs and tickets are generated.
- Token buckets of flow admission: whether a new flow is granted, over its rate or without a bucket is an oracle with these three answers; the pair counts are modelled.
- IPv4 parsing of packets, the choice of the channel index, and delivery by pool writers and readers.
- Virtual network devices, migration and the clients' side of peer connections: operating system calls dominate.
- Active, Activate, Deactivate and Suspend of the proxy registry: they only change the flag that gates traffic.
- HTTP request counters and numeric limit checks that one line states.
- ProxyRegistry.ValidateDeclarations: the syntax of names, domains and schemes is one flag of a declaration, because those checks are regular expressions on single fields.
- ProxyObjects.Registry.CheckSync: which of several reserved routes is reported is left open, because the declarations are a map.
- ForwardRegistry.Registry.ApplyPolicy: how notices are delivered, their deadline and the UDP settings they carry are not modelled, because delivery is input and output.
- VNetRouter.Router.RouteLocked: which expired flows a cleanup batch removes is left open, because map iteration leaves it open.
- VNetPool.PoolBroker.FinishBind: waiting for the pool to end is not modelled.
- LinkBroker.Broker.ClaimBinding: the acknowledgement and the hand-over to the handler are steps of LinkLifecycle, not of this method.
- UdpLimiter.Limiter.Acquire: integer overflow of counters is not modelled, because every limit keeps them small.
