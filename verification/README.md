# devmesh: a verified model of the publication lifecycle

devmesh gives local services stable frontends. A producer registers a backend under a
name; the daemon binds a frontend port or installs an HTTP route, remembers it, and points
it at whichever backend is current. Process and manual producers hold leases that they
renew by heartbeat, containers are published by a Docker watcher, and a dead producer's
name goes dormant and can be taken over.

The project models this in Dafny 4.11 and proves what holds in every run. `dafny verify
dfyconfig.toml` checks all of it.

## Layout

| file | models |
|---|---|
| `Types`, `Admission`, `Acceptance`, `Hosts` | records and requests, the checks of `registerLocked`, which requests pass them and what the others are told, the two hostname canonicalisers |
| `Registry`, `Leases`, `Store`, `Frontends`, `Router` | one class per manager, proved against functions on its abstract state |
| `World` | the daemon as a transition system at the granularity of its own locks: a registration is a chain of phases under the daemon mutex, and heartbeats, deletions, sweeps, failed writes and crashes come between any two of its steps |
| `WorldInvariants`, `Theorems` | what every step keeps, and the theorems about whole runs |
| `Registration`, `FailedRegistrations`, `CompletedRegistrations`, `Recovery` | one uninterrupted registration and its outcomes; registrations that fail and that succeed while others go on; registering again |
| `LateRenewals`, `Timing` | the heartbeat that strands a publication; heartbeats in time keep lease and publication |
| `Daemon` | the daemon class over the five managers; its methods move the transition system by the labels their code executes |
| `Convergence`, `DockerWatch`, `DockerInterleaving`, `Watcher` | reconciliation passes and their fixpoint, daemon and watcher as one transition system, the watcher class on top of the daemon class |
| `EndToEnd`, `Answers`, `SharedRoute` | what registering gives a producer's consumers, over whole runs; where backends come from and which requests are answered 404, 503 or from a backend; a run in which two services share a route |
| `Connections` | the accept loop, the workers and the closer of one TCP runtime |
| `Client` | the producer's heartbeat loop |

The daemon class and the TCP runtime class carry the state of their transition system as a
ghost field, and each method says which labels it moves it by. The classes and the transition
systems use the same functions (`Leases.Renewal`, `Registry.Cleared`, `Store.PortSet`,
`Frontends.Candidates`, ...), so a method's contract is the link between the code and the
theorems about runs.

## Where the code does not meet its own description

* The lease package is there so that a crashed producer leaves no stale backend
  (internal/lease/manager.go:1-2). `Renew` on a lease that has expired and was not swept
  deletes the entry (lines 96-99), and `Heartbeat` then ends nothing. The record stays ready,
  no later step ends it, and every later registration of the name under another owner key is
  refused until a restart. `LateRenewals.UnleasedIffStranded` is the exact statement,
  `LateRenewals.StrandingRun` a run from a fresh daemon, `Theorems.StuckForever` and
  `Theorems.PublicNameLost` the consequences. The client's own recovery, registering again on
  a 404 (pkg/devmesh/client.go:195-204), is refused too (`LateRenewals.RenewThenRefused`).
* A registration that fails is to leave nothing behind. There are two exceptions, and
  `FailedRegistrations.FailureLeavesNoTraceIff` says exactly when they occur. If the token
  generator fails, the record has been installed and stays without a lease. If the port that was
  bound cannot be written down, `try` closes it, but the assignment stays in the store's memory,
  in place of any earlier one, and the next write that succeeds, for whatever name, puts it on
  disk (`FailedRegistrations.LeftoverReachesDisk`, `FailedRegistrations.LeftoverRun`).
* One hostname belongs to one service (README.md:72-75), but `canonicalHTTPHost` and
  `normalizeHost` disagree on some hostnames: "a" and "a.." are accepted as hostnames of
  different services and share one route (`SharedRoute.SharedKeyRun`).
  `Theorems.RoutingAgreesWithRegistry` gives the condition under which routing is right for all
  requests, as an if and only if.
* A hostname that contains a bracket is accepted, but a request that names it with a port gets
  another route key (`Hosts.BracketAccepted`, `Hosts.HostWithPortIff`).
* A requested TTL is multiplied in 64 bits and can wrap around to an acceptable value
  (`Admission.TTLWrapExample`, `Admission.TTLHonouredIff`).
* `SetPort` can return nil and record nothing, exactly for port 0 and a name that the clean
  store does not know (`Store.RecordedIffNotSilent`, `Store.ZeroPortNotRecorded`). `Port` cannot
  tell the difference (`Store.NilMeansDurable`), and the allocator never passes 0
  (`Frontends.CandidatesCoverRange`).

## Assumptions

* A new registration ID was never issued before and is no container's ID. Containers' labels,
  name and inspect answers are fixed by their ID where a lemma says so.
* The clock does not go back, and sweeps compare deadlines with a time that it has reached.
* Only the watcher registers for Docker and forgets containers, one at a time.
* Writing the state file replaces it as a whole or leaves it alone; each saving operation takes
  the outcome as an argument. Any pattern of outcomes is covered.
* Binding fails on a port that is not between 1 and 65535, that the daemon itself has bound,
  or that an arbitrary function of attempt number and port declares taken.
* Registrations come from the sources process, manual and docker, which is what the API, the
  command line and the Docker watcher produce. Hostnames are ASCII.

## Model

| member | source | states |
|---|---|---|
| EndToEnd.ServedOnSchedule | pkg/devmesh/client.go:166-193 | A producer whose registration completes, whatever came between its steps, who derives its interval from the answer and misses no two heartbeats in a row: over any run without a restart, a deletion with its token or a registration in its owner's name, its next heartbeat is accepted, its TCP port listens, and if its hostname is the route key of no other service the proxy sends requests for it to the requested backend |
| EndToEnd.ServedUntilDisplaced | internal/proxy/http.go:120-140 | The same reachability for every source, from the completion of the registration on, in every phase of every run, until its publication ends or its owner replaces it; with or without a port in the Host header |
| Answers.BackendsWereAsked | internal/registry/model.go:118-130 | In every reachable state a record has a backend if and only if it is ready, and that backend was asked for under that name by a request of the run with a valid name, a port between 1 and 65535 and a loopback host |
| Answers.AnswersIff | internal/proxy/http.go:120-140 | In every reachable state a request without a route gets 404; with one it gets 503 if and only if the record is dormant, and is sent to a backend if and only if the record is ready with that backend |
| Answers.EndedIsUnavailable | internal/proxy/http.go:132-136 | From the end of a publication by deletion, sweep or container on, over any run until its name is installed again or a restart, requests for its hostname get 503 |
| EndToEnd.LeaseIsUsable | internal/daemon/daemon.go:494-501 | Of every completed registration: before the deadline, one TTL after it was added, the lease is renewed by one full TTL with the token that was issued, from the deadline on it is not found; it is deleted with that token; any other token is unauthorized and changes nothing |
| EndToEnd.PublishesRequest | internal/daemon/daemon.go:442-474 | Of every completed registration: a ready record with the requested backend, kind, protocol, source, owner and canonical hostname, its producer the ID or the container, on its URL or its runtime's port |
| CompletedRegistrations.CompletedDoes | internal/daemon/daemon.go:365-505 | Whatever heartbeats, deletions, sweeps, ticks and flushes come between its steps, a registration that completes leaves exactly the record of its checks and the lease of its request |
| CompletedRegistrations.PlanCompletes | internal/daemon/daemon.go:358-505 | A successful call that nothing interrupts completes in this sense, and its answer carries its ID, the frontend of its record and its TTL in whole seconds, 0 for containers |
| Theorems.LeasesAgreeWithRecords | internal/daemon/daemon.go:365-505 | In every interleaving, each lease's name has a ready, non-Docker record with the lease's ID as producer and the lease's owner key; a name has at most one lease; every TTL is between 3 s and 1 h |
| Theorems.LiveBackendsAreLeased | internal/daemon/daemon.go:287-305 | In every run without a late renewal or token failure, a ready leased record holds its lease, or its end is pending, or the registration in hand is about to settle it |
| Theorems.NothingStaleAtRest | internal/lease/manager.go:1-2 | In such a run, with the daemon idle, no end pending and no lease overdue, every ready leased record has its lease with time left: a dead producer leaves no backend |
| Theorems.SweepTakesEffect | internal/daemon/daemon.go:287-305 | A sweep interleaved with any run: once the end it left pending is carried out and no registration is in hand, no ready record belongs to the publication whose lease it took |
| LateRenewals.UnleasedIffStranded | internal/lease/manager.go:88-106 | Over all runs: outside the registration in hand, a ready leased record has neither lease nor pending end if and only if, since the last restart, some step was a heartbeat for it at or after its deadline or a failure to make its token |
| Theorems.StrandedIffAlong | internal/lease/manager.go:94-99 | The stranded publications are exactly those for which the run contains such a step since the last restart |
| Theorems.NothingStranded | internal/lease/manager.go:94-99 | Only those two steps ever strand a publication |
| Theorems.LateRenewalSticks | internal/daemon/daemon.go:525-535 | A heartbeat on an expired, unswept lease is answered as unknown and leaves the record ready with nothing to end it |
| Theorems.StuckForever | internal/daemon/daemon.go:426-440 | In every later run without a restart or a registration under the record's own owner key, the record stays ready and every registration of the name under another owner key is refused |
| Theorems.PublicNameLost | internal/daemon/daemon.go:413-433 | For a request that names no owner, the generated keys of all later IDs differ, so the name is refused to every such request until a restart |
| LateRenewals.RenewThenRefused | pkg/devmesh/client.go:195-204 | After a late heartbeat the client's own re-registration is refused |
| LateRenewals.EveryLeaseCanBeStranded | internal/lease/manager.go:94-99 | Every lease of every reachable state whose name nobody is registering is stranded if the clock reaches its deadline and one heartbeat comes before the sweep |
| LateRenewals.StrandingRun | internal/lease/manager.go:94-99 | A concrete run of a fresh daemon that ends with a ready record that has neither lease nor pending end |
| Theorems.NoWrongfulDisplacement | internal/registry/registry.go:67-83 | Over any run, a ready record stays exactly as it is until a restart, an end carrying its own producer ID, or an installation under its own owner key |
| Theorems.PendingMeansEnded | internal/daemon/daemon.go:297-305 | A pending end belongs to a lease that was granted, is gone and was ended exactly once |
| Theorems.EachLeaseEndsOnce | internal/lease/manager.go:85-170 | For every ID, live leases plus ends by delete, sweep, retirement or late renewal equal the leases granted: 0 or 1 |
| Theorems.ExpiryIsFinal | internal/lease/manager.go:85-121 | From its deadline on, swept or not, no renewal of a lease succeeds in any later state, across restarts; once it is removed no deletion finds it either |
| Theorems.ElapsedIsDead | internal/lease/manager.go:94-99 | Every lease of a reachable state that is past its deadline is in that position |
| Theorems.LeaseTermsFixed | internal/lease/manager.go:66-106 | Over any run, a lease keeps its ID, name, owner key, token and TTL; only its deadline moves |
| Theorems.FrontendPermanence | internal/daemon/daemon.go:400-412 | Over any run without restart, the kind, hostname and frontend of a name never change once its record exists |
| Theorems.RuntimesMatchServices | internal/runtime/manager.go:35-56 | In every run, between registrations: runtimes are exactly the TCP services, on pairwise distinct ports that are bound, recorded, remembered and on disk; nothing else is bound |
| Theorems.CrashKeepsFrontends | internal/state/store.go:20-54 | Under the port invariant alone, a crash in any phase leaves a loadable file whose next daemon has nothing bound, remembers each runtime's port, tries it first and needs no write to keep it |
| Theorems.CrashSafety | internal/runtime/allocator.go:45-58 | Over any run from a state in which a name listens on a port, through any crashes, failed writes and registrations of others, until the name is registered without a runtime: memory and disk keep the port, it is the first candidate, and after a restart it takes no write to keep it |
| Theorems.RoutingAgreesWithRegistry | internal/proxy/http.go:120-153 | In every reachable state, but for the moment between installing an HTTP record and its route, the proxy answers every Host header as the registry would if and only if every registered hostname is plain |
| Theorems.OnlyDockerPublishesForDocker | internal/daemon/daemon.go:237-261 | No step but the installation of a Docker registration makes a Docker record ready or changes one that is |
| WorldInvariants.RunKeeps | internal/daemon/daemon.go:287-568 | Every run keeps the whole invariant: leases, pending ends, IDs, ports, runtimes, URLs and routes |
| WorldInvariants.InitKeeps | internal/daemon/daemon.go:60-107 | A daemon just started over any file that Load accepts satisfies it |
| WorldInvariants.RetireKeeps | internal/daemon/daemon.go:431-440 | Retiring the old lease of a same-owner replacement keeps the invariant; from then on no lease carries the name |
| WorldInvariants.PersistKeeps | internal/runtime/allocator.go:87-103 | Keeping a bound port if it could be persisted and closing it if not both keep the invariant |
| WorldInvariants.InstallKeeps | internal/daemon/daemon.go:472-474 | Installing the record keeps the invariant although leases changed since the checks |
| WorldInvariants.RouteKeeps | internal/daemon/daemon.go:476-485 | Storing the route keeps the index of routes, also when the key is taken over from another service |
| WorldInvariants.GrantKeeps | internal/daemon/daemon.go:494-501 | Adding the lease keeps the invariant |
| WorldInvariants.RenewedBook | internal/lease/manager.go:85-106 | A renewal at any moment of a registration keeps the lease part of the invariant, in all four outcomes |
| WorldInvariants.SweptBook | internal/lease/manager.go:156-170 | So does a sweep, turning what it takes into pending ends |
| WorldInvariants.DeletedBook | internal/lease/manager.go:108-121 | So does a deletion acting on an entry looked up earlier |
| Registration.RegisteredIsRun | internal/daemon/daemon.go:365-505 | A whole registration is the run that executes its plan without interruption |
| Registration.RegisteredDoes | internal/daemon/daemon.go:431-505 | The complete new state of an admitted registration, by whether it got a frontend, a token, neither |
| Registration.SuggestedPortAnswered | internal/daemon/daemon.go:460-470 | A new TCP service is answered the port remembered for its name if that can be bound, and otherwise the port its request prefers if that can be bound |
| Registration.AnswerCodes | internal/daemon/daemon.go:457-497 | A refusal is passed on; no port is port_exhausted; a port that cannot be written down and a missing token are internal errors; an existing service is answered |
| FailedRegistrations.FailureLeavesNoTraceIff | internal/daemon/daemon.go:365-505 | Whatever heartbeats, deletions, sweeps, ticks and flushes come between its steps: a failing registration leaves registry, leases, pending ends, routes, runtimes, bound ports, state file and the store's memory as those alone would have left them, if and only if there was no port to bind or the port it could not write down was left in memory by an earlier failure; otherwise exactly that port is left in memory, or, if the token generator failed, the record, ready and without a lease |
| FailedRegistrations.GivingUpLeaves | internal/runtime/allocator.go:87-103 | A registration that gives up before its record is installed was for a name without a record, and leaves what the others alone would have left together with the port that it bound and could not write down, if any |
| FailedRegistrations.LeftoverReachesDisk | internal/state/store.go:63-79 | The next write that succeeds, for whatever name, puts that port on disk |
| FailedRegistrations.LeftoverRun | internal/runtime/allocator.go:87-103 | A run of a fresh daemon that refuses a registration and then has its port on disk, with no record, runtime or bound port |
| FailedRegistrations.RetiringNeverFails | internal/daemon/daemon.go:431-470 | Once a registration is to retire a lease, no interleaving makes it give up any more |
| FailedRegistrations.InstallNeverRefuses | internal/daemon/daemon.go:472-474 | In every reachable state the installation of the record goes through |
| Registration.FailureLeavesNoTrace | internal/daemon/daemon.go:365-505 | The same for an uninterrupted call, by the answer that the caller gets |
| Registration.RequestRepeated | internal/daemon/daemon.go:400-433 | A request admitted once, for a name that still has its kind and hostname, is admitted again if and only if its owner may claim the name, under the new ID and with the name's frontend |
| Registration.SweepThenRecover | pkg/devmesh/client.go:195-204 | After a sweep took the lease and ended the publication, the re-registration succeeds under the new ID with the same frontend |
| Recovery.RegistersAgainIff | internal/registry/registry.go:21-32 | After a registration completed, whatever came between its steps, and after any run without restart: the name has its frontend, and the same request passes the checks again if and only if the name is its owner's or dormant |
| Recovery.SameFrontendAgain | internal/daemon/daemon.go:457-474 | From then on no interleaving makes it give up, and when it completes the name has the same frontend under the new ID |
| Daemon.Daemon.constructor | internal/daemon/daemon.go:60-107 | A new daemon is in an initial state of the transition system |
| Daemon.Daemon.Check | internal/daemon/daemon.go:365-433 | The checks decide exactly as Admit, error code for error code, although FindByHostname may meet any record first; Acceptance.Verdict says what that is |
| Daemon.Daemon.CheckIdentity | internal/daemon/daemon.go:400-412 | Accepts if and only if kind and hostname agree with the existing record and no other service holds the hostname |
| Daemon.Daemon.RetireLease | internal/daemon/daemon.go:434-440 | Removes the previous publication's lease on a same-owner replacement and nothing otherwise |
| Daemon.Daemon.Front | internal/daemon/daemon.go:457-470 | Returns the URL, the runtime's port or the error, and changes runtimes, ports and store as that outcome requires |
| Daemon.Daemon.Commit | internal/daemon/daemon.go:472-505 | Installs record, route and lease; the answer carries the TTL in whole seconds |
| Daemon.Daemon.Register | internal/daemon/daemon.go:358-505 | Returns the outcome and moves all managers by the labels of a registration, a new runtime on the first candidate port that can be bound; keeps the invariant |
| Daemon.Daemon.Heartbeat | internal/daemon/daemon.go:525-535 | Moves by one renewal and changes the lease table only, whatever it answers; keeps the invariant |
| Daemon.Daemon.EndPublication | internal/daemon/daemon.go:297-305 | Clears the record if and only if the producer ID is the current one |
| Daemon.Daemon.DeleteRegistration | internal/daemon/daemon.go:537-557 | Moves by look-up, deletion and end, answers as the lease table demands, keeps the invariant |
| Daemon.DeletionEndsItsPublication | internal/daemon/daemon.go:540-557 | With the right token exactly that registration's record becomes dormant and no end stays pending; otherwise no record changes |
| Daemon.Daemon.ForgetDockerPublication | internal/daemon/daemon.go:559-568 | The end of a container's publication, a no-op for a container that has been replaced |
| Daemon.Daemon.SweepLeases | internal/daemon/daemon.go:287-295 | Moves by one sweep and the ends of what it took; afterwards no overdue lease is left, and exactly the records whose producers were overdue are dormant |
| Registry.Registry.CheckOwnership | internal/registry/registry.go:21-32 | True if and only if the name is free, the owner's, or dormant |
| Registry.Registry.CreateOrReplaceOwned | internal/registry/registry.go:34-49 | Installs the record under that same condition and changes nothing otherwise |
| Registry.Registry.ClearBackendIf | internal/registry/registry.go:67-83 | Makes the record dormant if and only if the producer is current; all else unchanged |
| Registry.Registry.FindByHostname | internal/registry/registry.go:85-96 | Finds some holder of the hostname if there is one, in any iteration order |
| Registry.HostnameVerdict | internal/daemon/daemon.go:408-412 | With unique hostnames the verdict does not depend on which record was found |
| Registry.DormantKeepsIdentity | internal/registry/registry.go:67-83 | A cleared record has no backend and is unavailable; name, kind, hostname, frontend, owner, producer, source and protocol stay |
| Leases.Manager.AddWithTTL | internal/lease/manager.go:66-83 | Adds the entry with deadline one TTL from now; a non-positive TTL becomes the default |
| Leases.Manager.Renew | internal/lease/manager.go:85-106 | New table and answer for the four cases unknown, expired (removed), wrong token, renewed |
| Leases.Manager.Delete | internal/lease/manager.go:108-121 | New table and answer for unknown, wrong token, removed |
| Leases.Manager.TakeExpired | internal/lease/manager.go:156-170 | Splits the table exactly at the deadline, each overdue entry handed out once |
| Leases.DividedAtDeadline | internal/lease/manager.go:156-170 | Before its deadline a lease survives a sweep unchanged, from the deadline on it is overdue |
| Timing.PunctualLeaseSurvives | internal/lease/manager.go:85-106 | Over any run of the daemon without a restart, a deletion with the token or a registration of the name by its owner, in which the clock stays before the current deadline: the lease lives on its own terms, its record does not change, and a heartbeat succeeds at any point |
| Client.ClientNeverOverestimates | pkg/devmesh/client.go:123-164 | The client's TTL never exceeds the daemon's, is never the fallback, and fits three heartbeat intervals |
| Client.BelievedIs | pkg/devmesh/client.go:128-131 | The answered seconds, or 15 s if there are none |
| Client.IntervalIs | pkg/devmesh/client.go:154-164 | A third of the TTL, and at least one second |
| Timing.ScheduledClientKeepsLease | pkg/devmesh/client.go:154-193 | A client whose interval comes from the answer to its registration and who misses no two heartbeats in a row never loses lease or publication over any run of the daemon and never gets a 404 |
| Timing.ScheduleIsPunctual | pkg/devmesh/client.go:154-164 | On that schedule the deadline is always one TTL beyond the last heartbeat and the clock never reaches it |
| Client.Handle.Adopt | pkg/devmesh/client.go:123-145 | Takes over ID, token, TTL and expiry of the newest registration |
| Client.Handle.HeartbeatLoop | pkg/devmesh/client.go:166-213 | Always stands for the latest registration and expiry, waits one of its intervals after success and a jittered, bounded, doubling delay after failures |
| Client.DelayIs | pkg/devmesh/client.go:184-211 | After a success one interval of the registration then current; after a failure the delay for as many failures as came right before it |
| Client.BackoffIs | pkg/devmesh/client.go:171-211 | 0.1 s, doubled with each failure: 0.2, 0.4, 0.8, 1.6, 3.2, then 5 s |
| Client.CurrentIs | pkg/devmesh/client.go:195-204 | The registration the loop stands for is the last that a re-registration was given |
| Client.ExpiryIs | pkg/devmesh/client.go:184-192 | The expiry is that of the last registration or readable renewal |
| Client.Jittered | pkg/devmesh/client.go:215-220 | The jittered delay is within a fifth of the delay |
| Client.Handle.Close | pkg/devmesh/client.go:242-270 | Stops the loop, then deletes the latest registration, also one adopted while stopping, at most once |
| Store.NilMeansDurable | internal/state/store.go:56-117 | From any file Load accepts, for all calls and under any failed writes: Port answers what was asked for, and after any nil result a reload gives the whole memory |
| Store.RecordsExactly | internal/state/store.go:63-117 | Without calls that assign port 0 to an unknown name of a clean store, memory is exactly the map that was asked for |
| Store.RecordedIffNotSilent | internal/state/store.go:63-79 | A nil result of SetPort leaves the assignment recorded and durable if and only if it was not such a call |
| Store.ZeroPortNotRecorded | internal/state/store.go:66-71 | Such a call on a store just loaded: nil, and nothing recorded |
| Store.Store.constructor | internal/state/store.go:20-54 | The state after Load of a missing, empty, corrupt, version-0 or current file |
| Store.DocumentLoads | internal/state/store.go:42-53 | A document of version 1 or below loads with exactly its ports; version 0 becomes 1 |
| Store.OtherFilesLoad | internal/state/store.go:22-45 | A later version and an unreadable file are refused; a missing or empty file loads without ports, and so does a corrupt one if and only if it could be copied aside |
| Store.WrittenIsReadBack | internal/state/store.go:119-145 | What is written is version and ports, and it is read back as it was |
| Theorems.StartsFromFile | internal/runtime/allocator.go:45-58 | A daemon started over any accepted document tries each of its ports other than 0 first for its name and needs no write to keep it |
| Store.Store.SetPort | internal/state/store.go:63-79 | New state and result; a nil result means durable, also after earlier failed writes |
| Store.Store.Forget | internal/state/store.go:81-95 | The same for removal |
| Store.Store.Save | internal/state/store.go:108-117 | The same for a flush; a failed flush leaves the dirty flag |
| Store.Store.SaveLocked | internal/state/store.go:119-145 | Replaces the file as a whole or leaves it |
| Frontends.ScanCovers | internal/runtime/allocator.go:73-84 | The rotated scan meets each remaining port of the range exactly once and no other |
| Frontends.CandidatesCoverRange | internal/runtime/allocator.go:45-85 | Every port of the range is a candidate; after the two suggestions each appears once, in range, and neither suggestion again; 0 never appears |
| Frontends.SuggestedFirst | internal/runtime/allocator.go:46-66 | The remembered port is the first candidate and the preferred port the next, in the range or not |
| Frontends.ScannedAt | internal/runtime/allocator.go:67-76 | The place among the candidates of every scanned port min + (hash mod size + i) mod size |
| Frontends.PreferredPortTaken | internal/runtime/allocator.go:59-66 | A preferred port that can be bound is the one taken, unless a remembered one can be bound before it |
| Frontends.AllocatesPreferred | internal/runtime/allocator.go:44-103 | Then Allocate returns exactly that port, if it can be written down |
| Frontends.Allocator.Try | internal/runtime/allocator.go:87-103 | Binds, then persists; keeps the port if and only if that succeeds |
| Frontends.Allocator.Allocate | internal/runtime/allocator.go:44-85 | Stops at the first bindable candidate, having tried exactly those up to it in order; exhausted only if all were tried and refused |
| Frontends.ExhaustedMeansAllRefused | internal/runtime/allocator.go:69-84 | Exhaustion means that every port of the range is bound by the daemon or was found taken by one of the attempts of this allocation |
| Frontends.RememberedPortReused | internal/runtime/allocator.go:46-58 | A remembered port that can be bound is taken back, even if no write succeeds |
| Frontends.Manager.EnsureTCPRuntime | internal/runtime/manager.go:35-56 | Returns an existing runtime untouched, otherwise creates one on an allocated port, and none on failure |
| Frontends.Manager.Shutdown | internal/runtime/manager.go:82-96 | Drains the table and closes exactly its listeners |
| Hosts.FixedPointIff | internal/proxy/http.go:142-153 | An accepted hostname is a fixed point of normalizeHost if and only if it is plain: no space, leading bracket, trailing bracket or dot at its ends |
| Hosts.HostWithPortIff | internal/proxy/http.go:142-153 | A plain hostname followed by a port has the hostname as route key if and only if it contains no bracket |
| Hosts.BracketedKey | internal/proxy/http.go:142-153 | A bracketed address with a port has the address as its route key |
| Hosts.ManyColonsKey | internal/proxy/http.go:142-153 | A bare address with several colons is its own route key |
| Hosts.CanonicalIsAccepted | internal/daemon/daemon.go:507-516 | What canonicalHTTPHost accepts is non-empty, lower-case, without colon, slash or at-sign, and the request's text but for case, surrounding space and one trailing dot |
| Hosts.CanonicalExact | internal/daemon/daemon.go:507-516 | For every text: what is refused, and that of all others exactly the white space around them and one trailing dot go and letters become lower-case |
| Hosts.BracketAccepted | internal/daemon/daemon.go:507-516 | "a[b" is accepted, and with a port it has another route key |
| SharedRoute.SharedKeyRun | internal/daemon/daemon.go:408-412 | A run of a fresh daemon after which services a and b hold hostnames "a" and "a.", both ready, and a request for "a" reaches the backend of b |
| Hosts.DistinctHostsOneKey | internal/daemon/daemon.go:507-516 | "a" and "a.." are accepted as different hostnames and share one route key |
| Router.Router.Set | internal/proxy/http.go:55-90 | Stores the route under the normalised hostname |
| Router.Router.ServeHTTP | internal/proxy/http.go:120-140 | Answers 404, 503 or the current backend of the routed service |
| Router.URLReachesListener | internal/proxy/http.go:110-118 | The URL leads to the configured listener and names a port exactly where the scheme does not imply it |
| Router.RoutingAgreesIff | internal/proxy/http.go:120-153 | For every reachable shape of route table: agreement with the registry on all requests if and only if all hostnames are plain |
| Router.OddDisagrees | internal/proxy/http.go:142-153 | With one hostname that is not plain, constructs a Host header that is answered wrongly |
| Router.PlainOwnsKey | internal/proxy/http.go:142-153 | If all hostnames are plain, each is the route key of its own service and of no other |
| Admission.TTLHonoured | internal/daemon/daemon.go:383-391 | Accepted TTLs are 3 s to 1 h; up to 9223372036 requested seconds, exactly 3 to 3600 are accepted and honoured |
| Admission.TTLHonouredIff | internal/daemon/daemon.go:386-391 | An accepted positive request is honoured if and only if it is at most 3600 seconds |
| Admission.TTLWrapExample | internal/daemon/daemon.go:386-391 | 2^55 + 15 seconds is accepted as 15 seconds |
| Admission.OwnKeysDistinct | internal/daemon/daemon.go:417-420 | Generated owner keys of different IDs differ, also across sources |
| Admission.AdmittedAsks | internal/daemon/daemon.go:365-433 | What passes the checks carries the request's name, kind, backend, source, owner and canonical hostname, and for leased sources a TTL from 3 s to 1 h |
| Acceptance.Verdict | internal/daemon/daemon.go:365-433 | Every request gets the error code of the first of these that it fails, in this order, and is accepted if and only if it fails none: name, kind, backend, duration, hostname, agreement with the registry, container ID, ownership |
| Acceptance.ValidNameIff | internal/registry/model.go:102-116 | A name is at most 120 characters, and every part between dots is a lower-case letter or digit followed by letters, digits and hyphens |
| Acceptance.ValidBackendIff | internal/registry/model.go:118-130 | A backend is on loopback, its port is between 1 and 65535 and its host is not all white space |
| Acceptance.DurationIff | internal/daemon/daemon.go:383-391 | A duration is accepted if and only if it is absent, for a container, or wraps in 64 bits to between 3 s and 1 h in nanoseconds |
| Acceptance.HostIff | internal/daemon/daemon.go:507-516 | A hostname is accepted if and only if it has no colon, slash or at-sign and is more than white space around at most one dot |
| Types.ValidConfigIff | internal/config/config.go:79-90 | Any port range within 1 to 65535 and any default lease from 3 s to 1 h is a valid configuration |
| DockerWatch.TwoPassesConverge | internal/dockerwatch/watcher.go:156-200 | From any well-formed state and any fixed inventory, whatever its containers answer: if no allocation of the second pass fails, a third changes no record and no tracked entry |
| DockerWatch.OnePassIsNotEnough | internal/dockerwatch/watcher.go:160-200 | A container of a new owner is refused in the first pass, which then ends the old record, and accepted in the second |
| Watcher.OwnerChangeRun | internal/dockerwatch/watcher.go:160-200 | The same from a state that a run of a fresh daemon reaches |
| DockerInterleaving.RunsStayCoupled | internal/dockerwatch/watcher.go:232-251 | Over every run of daemon and watcher, step by step: every ready Docker record's container is tracked under its name, about to be, or about to be forgotten; with nothing on its way in or out, it is tracked |
| DockerWatch.PassLeavesOnlyListed | internal/dockerwatch/watcher.go:186-199 | After a pass every ready Docker record belongs to a listed container |
| DockerWatch.ListedIsNeverCleared | internal/dockerwatch/watcher.go:156-185 | A pass never clears a listed container, whether or not its inspect succeeds; its record can only go to another listed container of the same owner |
| DockerWatch.StoppedEnds | internal/dockerwatch/watcher.go:239-250 | A stop event makes exactly the record of that container unavailable, untracks it, and keeps the coupling |
| DockerWatch.AdmitFactors | internal/daemon/daemon.go:365-433 | For containers, admission is a fixed verdict on the container and a verdict of the registry, independent of the registration ID |
| DockerInterleaving.RunKeeps | internal/dockerwatch/watcher.go:232-296 | Every step of the daemon's transition system and of the watcher, publishing, tracking, untracking and forgetting being separate, keeps that coupling together with the daemon's own invariant |
| DockerInterleaving.InstallPublishes | internal/daemon/daemon.go:457-474 | In every reachable state the installation of a record is the publication that the passes are made of |
| DockerInterleaving.InstallThenTrack | internal/dockerwatch/watcher.go:274-282 | Installing and then tracking a container is what a pass does for it |
| DockerInterleaving.InterleavedPassLeavesOnlyListed | internal/dockerwatch/watcher.go:186-199 | The second half of a pass, interleaved with any run of the daemon, leaves only listed containers' records ready |
| Convergence.SecondRoundChangesNothing | internal/daemon/daemon.go:400-474 | Registering a list twice over: if no allocation of the first round fails, the second ends where it began, whatever ports it is offered |
| Convergence.AdmittedIffSettled | internal/daemon/daemon.go:400-433 | If no allocation fails, a ticket admitted in its turn is settled at the end of the round and a refused one is refused at the end too |
| Watcher.ReconcileConverges | internal/dockerwatch/watcher.go:156-200 | Convergence in two passes from every reachable state of the daemon, if no allocation of the second fails |
| Watcher.Watcher.InspectWithRetry | internal/dockerwatch/watcher.go:256-295 | The first answer that is not a missing port, or after seven retries the eighth; a failure if the calls run out of answers |
| Watcher.Watcher.RegisterContainer | internal/dockerwatch/watcher.go:253-296 | Publishes through the daemon, tracks the container if and only if the daemon accepted it, and tells whether it failed for want of a frontend |
| Watcher.Watcher.HandleStop | internal/dockerwatch/watcher.go:239-250 | Untracks and ends the publication that was tracked, or does nothing |
| Watcher.Watcher.ForgetGone | internal/dockerwatch/watcher.go:186-199 | Untracks all that was not seen and ends exactly those publications, in any order |
| Watcher.Watcher.Reconcile | internal/dockerwatch/watcher.go:156-200 | Does to registry and tracked map exactly what a pass does, tells whether all allocations succeeded, and keeps the daemon's invariant |
| Watcher.Watcher.Ticks | internal/dockerwatch/watcher.go:202-230 | Passes repeated over a fixed inventory: once one from the second on has found a frontend for everything it admitted, no later pass changes a record or a tracked entry |
| Watcher.OnlyListedStayReady | internal/dockerwatch/watcher.go:156-200 | For containers whose name is fixed by their ID, after a pass every ready Docker record belongs to a listed, enabled container |
| Connections.ServiceRuntime.BeginProxy | internal/runtime/service.go:120-129 | Moves the runtime by the accept loop's Begin step: admitted if and only if it is not closed |
| Connections.ServiceRuntime.EndProxy | internal/runtime/service.go:131-136 | Moves it by the worker's steps Untrack and Finish and keeps the invariant |
| Connections.ServiceRuntime.HandleAccepted | internal/runtime/service.go:71-95 | A worker is started if and only if there is a backend, a free slot and no shutdown; otherwise the socket is closed and no slot is lost |
| Connections.ServiceRuntime.Work | internal/runtime/service.go:89-95 | A finished worker's socket is closed, it is no longer tracked or counted, and its slot is free |
| Connections.ServiceRuntime.Close | internal/runtime/service.go:138-151 | Moves it by the closer's steps SetFlag and CloseListener, once |
| Connections.ServiceRuntime.CloseActiveConnections | internal/runtime/service.go:153-165 | After Close, closes exactly the tracked connections; then every connection ever admitted is closed |
| Connections.ShutdownRuntimes | internal/runtime/manager.go:82-104 | Closes all listeners, then all connections: of every runtime each connection ever admitted is closed and none is admitted meanwhile |
| Connections.NothingLeaks | internal/runtime/service.go:58-97 | In every interleaving slots equal live workers plus the one in hand, at most 4096; the wait group counts the unfinished; every accepted connection is in hand, copied or closed |
| Connections.AdmittedBelowLimit | internal/runtime/service.go:78-95 | In every reachable state with a backend and no shutdown, the connection in hand gets a worker if there are fewer than 4096 and is closed if there are 4096 |
| Connections.ManyWorkers | internal/runtime/service.go:46-97 | Any number of workers up to 4096 is reached by a run |
| Connections.NoAdmissionAfterClose | internal/runtime/service.go:120-151 | After Close no run admits a connection or raises the wait group |
| Connections.ShutdownClosesEverything | internal/runtime/service.go:138-181 | After Close and CloseActiveConnections every connection ever admitted is closed; when the wait group is empty no worker is left |
| Connections.DrainIsBounded | internal/runtime/service.go:58-136 | With the listener closed, loop and workers take at most a computed number of further steps in any run |
| Connections.DrainNeverStuck | internal/runtime/service.go:58-136 | Until the loop has stopped and all workers are gone, one of them can take a step |

## Left out

- Sockets, byte copying, half-close, dial errors, `httputil.ReverseProxy`, header rewriting, TLS and certificates: only bind, close and route selection have outcomes here.
- The Unix socket transport, JSON, HTTP status mapping, command line, doctor, Docker probe and configuration sources.
- The Docker client, event stream and `RegistrationFromInspect`: a container is its ID, its label state and the answers its inspect calls get. A failed listing, which changes nothing, is left out.
- DNS in `IsLoopbackHost` is a flag of the request; the FNV value is an arbitrary function of the name; token comparison in constant time is equality.
- Unicode hostnames: case folding and white space are those of ASCII.
- `UpdatedAt`, `DockerContainerID` as a field separate from the producer, logging, `List`, `Inspect` and the API projections.
- `Registry.SetBackend`, `Registry.Remove`, `Router.Delete`, `Manager.RemoveRuntime`, `Manager.Expired`: not on the daemon's lifecycle paths.
- Registrations made in process with an unknown or empty source, or with an ID chosen by the caller.
- Shutdown of the daemon as a whole, the deadline of `WaitForProxies`, and shutting down while a registration is under way.
- Frontends.Manager.Shutdown: states the closing of the listeners in the table only; what happens to each runtime's connections is in Connections.ShutdownRuntimes.
- Client.Handle.HeartbeatLoop: the arithmetic of the jitter is that of real numbers; `endpoint` is not modelled.
- Client.Handle.Close: the two-second limits on waiting for the loop and on the deletion are not modelled.
- Registration.FailureLeavesNoTrace: states one uninterrupted call; interleaved ones are in FailedRegistrations.FailureLeavesNoTraceIff.
- Connections.ServiceRuntime.HandleAccepted: states one turn of the accept loop without interruption; Connections.NothingLeaks covers all interleavings.
- Connections.ServiceRuntime.Work: states one worker's end without interruption; Connections.NothingLeaks covers all interleavings.
- Connections.ShutdownRuntimes: waiting for the proxies is left out, and workers do not act in between; Connections.ShutdownClosesEverything and Connections.DrainIsBounded cover them for one runtime.
- Store.Store.SaveLocked: the temporary file, the sync and the rename are one write that succeeds or does not.
- Daemon.Daemon.SweepLeases: states one uninterrupted sweep; interleaved ones are in Theorems.SweepTakesEffect.
- Watcher.Watcher.Reconcile: states one uninterrupted pass; passes interleaved with other steps are covered by DockerInterleaving.
