# Verified models of the Unbounded cores

Dafny models of the parts of the Unbounded repository whose correctness rests on invariants across several stores, on
interleavings, or on exact byte-level specifications, with proofs of what those parts are for.

Each concurrent component is a state machine with one step per mutex section or atomic operation; a run is any
interleaving of enabled steps, and the main results hold in every state of every run. Code that updates fields or
loops is also written as classes and methods, each proved against the step or the specification it stands for. Clock
readings, resolver answers, fresh identifiers, hashes, the block cipher and what other software answers are parameters.

| file | component |
|---|---|
| DetailSpec, DetailLoops, DetailInvariant, DetailRuns, DetailGuarantees, DetailCacheEffects, DetailRequests | the leader-local manager of on-demand node details and its TTL cache |
| PeerIdentity, NodeStatusTypes, StatusSpec, StatusRuns, StatusCache | the revisioned node status cache with optimistic delta commit, bound to that manager |
| ClusterCache, SummaryDelta | the patched cluster status and the summaries broadcast from it |
| PullerPump | the Gantry puller pump: gate, admission and run semaphores, in-flight claims, shutdown |
| LeaseFence | the fence on the leader lease |
| InformerLifecycle | the gateway informer generations of a node |
| FrameReader | pooled reading of WebSocket frames |
| VirtualLayer, RangedRead | the load generator's synthetic layers and parallel ranged reads |

How the heap is modelled: a request record of the detail manager outlives its map entries while a worker holds it, so
records live in one map by request ID, which stands for the pointer. Pointers that are only compared (cache entries,
statuses) carry an address from a counter that never goes back. A wake channel is the number of times waiters were
woken: the channel a waiter holds is closed once that number has grown.

Where the code does not meet the expected property, the model keeps the code and states exactly when it does:

- A wrapped range count makes a ranged read report success having read nothing (`RangedRead.WrappedReadsNothing`).
  Without that, the cover is exact if and only if the rotation fits (`RangedRead.CoverIsExact`), and any other rotation
  can report success with a byte missing (`RangedRead.MisfitMisses`). The rotation a process picks for itself fits with
  at most 2^62 ranges unless its cohort's product wraps too far (`RangedRead.PickedRotation`). Plain rotation of an
  empty object divides by zero (`RangedRead.RangeRotation`).
- Two gateway informer generations can be live while a retire or close is between its lock section and its cancel
  (`InformerLifecycle.TwoLiveGenerations`); if no start takes effect then, there is never more than one. The overlap
  belongs to the type's interface: in the node, prepare and retire share one reconcile worker
  (cmd/unbounded-net-node/site_watch_reconcile.go:277, 323, 369).
- An in-flight digest need not be a pull: the direct-origin fallback claims digests in the same map and drops its claim
  when one of its guards turns it down (`PullerPump.PiggybackOnFallback`). A fallback past its guards does fetch, and
  claims of the pump itself are always pulls that run (`PullerPump.ClaimRuns`, `PullerPump.PumpClaimRuns`).
- The lease fence excludes others exactly up to a window of the lease duration times the slowest clock rate, and not
  across a voluntary release (`LeaseFence.WindowTooLong`, `LeaseFence.ReleaseOverlaps`).
- A peer handshake at the Unix epoch, or too far from it for 64-bit nanoseconds, is not restored from measurement
  columns (`PeerIdentity.ColumnsRoundTrip`).
- The cluster cache index is right only for notifications that carry their node's name; a full status without a name
  stored before details are bound does not (`ClusterCache.PatchKeepsIndex`).

## Model

| member | source | states |
|---|---|---|
| `DetailRuns.RunKeeps` | cmd/unbounded-net-controller/detail_requests.go:86-434 | Along every run of viewers, replies, failed pulls, publications, deletions, reconnects, timers and shutdown, in any interleaving: a retained request is Pending exactly when it is the active one of its node and then wakes at its deadline; every unexpired snapshot names a retained Complete request of its node that lapses with it; and every earlier state evolves into every later one |
| `DetailRuns.NextKeeps` | cmd/unbounded-net-controller/detail_requests.go:86-434 | Every lock section keeps that invariant and that relation to any earlier state of the run |
| `DetailInvariant.NewIsValid` | cmd/unbounded-net-controller/detail_requests.go:61-79 | A new manager satisfies the invariant, so runs have a start |
| `DetailInvariant.ExpireKeeps` | cmd/unbounded-net-controller/detail_requests.go:331-369 | An expiry pass keeps the invariant and wakes waiters whenever a request leaves Pending |
| `DetailInvariant.InvalidateAllKeeps` | cmd/unbounded-net-controller/detail_requests.go:249-269 | Invalidating any set of requests, each with its own clock reading, keeps the invariant |
| `DetailInvariant.StartDispatchKeeps` | cmd/unbounded-net-controller/detail_dispatch.go:85-105 | Starting a dispatch keeps one worker per dispatching request |
| `DetailInvariant.ForgetKeeps` | cmd/unbounded-net-controller/detail_legacy.go:104-121 | Forgetting a node keeps the invariant |
| `DetailRuns.AskKeeps` | cmd/unbounded-net-controller/detail_requests.go:86-134 | A viewer request keeps the invariant on each of its paths: refused, replaced identity, cached, joined and newly opened |
| `DetailRuns.LookKeeps` | cmd/unbounded-net-controller/detail_requests.go:136-160 | A look-up by request ID keeps the invariant |
| `DetailRuns.ReplyKeeps` | cmd/unbounded-net-controller/detail_requests.go:164-212 | A reply keeps the invariant whether it is stored or refused |
| `DetailRuns.FailKeeps` | cmd/unbounded-net-controller/detail_legacy.go:123-160 | A reported failure keeps the invariant |
| `DetailRuns.PollKeeps` | cmd/unbounded-net-controller/detail_requests.go:216-236 | Handing the pending command to a polling node keeps the invariant |
| `DetailRuns.NodeGoneKeeps` | cmd/unbounded-net-controller/detail_requests.go:238-247 | An informer deletion keeps the invariant |
| `DetailRuns.PublishKeeps` | cmd/unbounded-net-controller/detail_legacy.go:18-74 | A legacy publication keeps the invariant: a snapshot it stores is backed by a request it creates or reuses |
| `DetailRuns.ReadBaseKeeps` | cmd/unbounded-net-controller/detail_legacy.go:76-101 | Reading a delta base keeps the invariant |
| `DetailRuns.PullFailsKeeps` | cmd/unbounded-net-controller/detail_requests.go:293-329 | A failed pull only notes its error on a request that is still active |
| `DetailRuns.ReconnectKeeps` | cmd/unbounded-net-controller/detail_dispatch.go:69-83 | A reconnecting node is given the command by a new worker or by the running one |
| `DetailRuns.WorkerEndsKeeps` | cmd/unbounded-net-controller/detail_dispatch.go:85-105 | A worker that ends serves a retry noted meanwhile, or releases the request and cancels its context if it has settled |
| `DetailRuns.RetryIsServed` | cmd/unbounded-net-controller/detail_dispatch.go:85-105 | A retry noted during a dispatch is served by the same slot; the worker count stays one |
| `DetailRuns.StopKeeps` | cmd/unbounded-net-controller/detail_requests.go:381-434 | Shutting the manager down keeps the invariant |
| `DetailGuarantees.LookIsExact` | cmd/unbounded-net-controller/detail_requests.go:136-160 | A look-up carries details if and only if the manager is open and the snapshot is unexpired, was stored under that very request ID and node, for the identity resolved in this call; and then it is that snapshot |
| `DetailGuarantees.AskIsExact` | cmd/unbounded-net-controller/detail_requests.go:86-134 | A viewer is answered from the cache if and only if a refresh was not forced and the unexpired snapshot is of the identity resolved in this call |
| `DetailGuarantees.AskJoinsOrOpens` | cmd/unbounded-net-controller/detail_requests.go:86-134 | Viewers share: a pending answer is the node's open request for this identity with its own deadline and no new worker, if there is one on time, and otherwise a new request due one timeout from now with exactly one worker |
| `DetailGuarantees.PollIsExact` | cmd/unbounded-net-controller/detail_requests.go:216-236 | A polling node is given a command exactly for its active, unexpired request whose pull failed, for the identity resolved in this call |
| `DetailGuarantees.AcceptedReply` | cmd/unbounded-net-controller/detail_requests.go:164-212 | A reply that is on time, usable, of this node and identity and for a pending request is stored whole under it for a full TTL, completes it, leaves other nodes alone, and does not cancel a command write in flight |
| `DetailGuarantees.RefusedReply` | cmd/unbounded-net-controller/detail_requests.go:164-212 | Any other reply stores nothing and renews nothing; success is then reported only for a request already complete |
| `DetailGuarantees.PublicationCompletesNothing` | cmd/unbounded-net-controller/detail_legacy.go:39-74 | A legacy publication never completes a pending request |
| `DetailGuarantees.FailureSparesCache` | cmd/unbounded-net-controller/detail_legacy.go:123-160 | A failure report takes effect exactly under the stated guards, ends only its own request, leaves the older snapshot alone and spares a command write in flight |
| `DetailGuarantees.NoLostWakeup` | cmd/unbounded-net-controller/detail_wait.go:14-43 | A waiter that saw Pending together with the wake channel finds that channel closed after any later step that took the request out of Pending |
| `DetailGuarantees.ClosedIsFinal` | cmd/unbounded-net-controller/detail_requests.go:381-434 | After Close nothing is retained, active or cached again and no worker is added |
| `DetailGuarantees.DispatchOwnership` | cmd/unbounded-net-controller/detail_dispatch.go:69-105 | At every moment of every run a request has at most one worker, exactly while it is dispatching; a retry wish on a pending request of an open manager has one; a settled request without one has a dead context |
| `DetailGuarantees.MonotoneLife` | cmd/unbounded-net-controller/detail_requests.go:162-212 | States only move forward, deadlines never change, and an expiry changes only with a store received since |
| `DetailGuarantees.ExpireRetains` | cmd/unbounded-net-controller/detail_requests.go:331-369 | Expiry keeps exactly the requests still within their retention, all waking after now |
| `DetailGuarantees.ExpireComposes` | cmd/unbounded-net-controller/detail_requests.go:331-369 | How often expiry ran in between does not matter: two passes retain what the later one alone would, unchanged |
| `DetailRequests.NewNodeDetailRequests` | cmd/unbounded-net-controller/detail_requests.go:61-79 | Refuses a non-positive timeout without touching the cache; otherwise makes a valid manager over the emptied cache |
| `DetailRequests.NodeDetailCache.Store` | cmd/unbounded-net-controller/detail_cache.go:62-96 | Compare-and-set: with a base, stores only while that very status is the unexpired one; a stored snapshot expires one TTL after receipt |
| `DetailRequests.NodeDetailCache.Get` | cmd/unbounded-net-controller/detail_cache.go:98-117 | Returns the unexpired snapshot and drops an expired one |
| `DetailRequests.NodeDetailCache.Delete` | cmd/unbounded-net-controller/detail_cache.go:119-127 | Removes exactly that node |
| `DetailRequests.NodeDetailCache.Clear` | cmd/unbounded-net-controller/detail_cache.go:129-136 | Removes everything |
| `DetailRequests.NodeDetailCache.Expire` | cmd/unbounded-net-controller/detail_cache.go:138-164 | In any map order, removes exactly the expired snapshots, counts them and returns the earliest remaining expiry |
| `DetailRequests.NodeDetailRequests.constructor` | cmd/unbounded-net-controller/detail_requests.go:61-79 | The new state |
| `DetailRequests.NodeDetailRequests.ExpirePass` | cmd/unbounded-net-controller/detail_requests.go:331-369 | The expiry loop gives the same maps, change flag and minimum for every order of visits |
| `DetailRequests.NodeDetailRequests.ExpireLocked` | cmd/unbounded-net-controller/detail_requests.go:331-369 | Expires what is due, wakes waiters if anything was, and returns the minimum wake-up time of what remains |
| `DetailRequests.NodeDetailRequests.InvalidateLocked` | cmd/unbounded-net-controller/detail_requests.go:249-269 | Makes the request unavailable, deactivates it, and evicts its snapshot only |
| `DetailRequests.NodeDetailRequests.InvalidateEach` | cmd/unbounded-net-controller/detail_requests.go:238-247 | Invalidating in any order gives one result |
| `DetailRequests.NodeDetailRequests.ForgetLocked` | cmd/unbounded-net-controller/detail_legacy.go:111-121 | Invalidates every request of the node and deletes its snapshot |
| `DetailRequests.NodeDetailRequests.ResultLocked` | cmd/unbounded-net-controller/detail_requests.go:271-287 | The result of a request, with details only from its own unexpired snapshot |
| `DetailRequests.NodeDetailRequests.StartDispatchLocked` | cmd/unbounded-net-controller/detail_dispatch.go:85-105 | Marks the request as dispatching and adds its worker |
| `DetailRequests.NodeDetailRequests.PrepareLocked` | cmd/unbounded-net-controller/detail_requests.go:86-134 | Expires, invalidates requests of other identities, and refreshes the cache view |
| `DetailRequests.NodeDetailRequests.OpenLocked` | cmd/unbounded-net-controller/detail_requests.go:86-134 | Opens a new request with a fixed deadline and its dispatch |
| `DetailRequests.NodeDetailRequests.AnswerLocked` | cmd/unbounded-net-controller/detail_requests.go:86-134 | Answers from the cache, joins the active request or opens one |
| `DetailRequests.NodeDetailRequests.RequestDetail` | cmd/unbounded-net-controller/detail_requests.go:86-134 | The whole viewer request |
| `DetailRequests.NodeDetailRequests.ResultForId` | cmd/unbounded-net-controller/detail_requests.go:136-160 | The whole look-up |
| `DetailRequests.NodeDetailRequests.WatchMetadata` | cmd/unbounded-net-controller/detail_wait.go:14-28 | Result and wake channel in one section, without the details themselves |
| `DetailRequests.NodeDetailRequests.Complete` | cmd/unbounded-net-controller/detail_requests.go:164-212 | The whole reply |
| `DetailRequests.NodeDetailRequests.CompleteFailure` | cmd/unbounded-net-controller/detail_legacy.go:123-160 | The whole failure report |
| `DetailRequests.NodeDetailRequests.PendingFallback` | cmd/unbounded-net-controller/detail_requests.go:216-236 | The command for a polling node |
| `DetailRequests.NodeDetailRequests.InvalidateNode` | cmd/unbounded-net-controller/detail_requests.go:238-247 | An informer deletion |
| `DetailRequests.NodeDetailRequests.DispatchFallback` | cmd/unbounded-net-controller/detail_requests.go:293-329 | Noting a failed pull |
| `DetailRequests.NodeDetailRequests.RetryDispatch` | cmd/unbounded-net-controller/detail_dispatch.go:69-83 | A reconnect |
| `DetailRequests.NodeDetailRequests.DispatchDone` | cmd/unbounded-net-controller/detail_dispatch.go:85-105 | The end of a worker |
| `DetailRequests.NodeDetailRequests.ExamineLocked` | cmd/unbounded-net-controller/detail_legacy.go:18-74 | Preparing for a publication, dropping what it must not reuse |
| `DetailRequests.NodeDetailRequests.StoreLegacyLocked` | cmd/unbounded-net-controller/detail_legacy.go:39-74 | Storing a publication under a reused or new request |
| `DetailRequests.NodeDetailRequests.ObserveLegacy` | cmd/unbounded-net-controller/detail_legacy.go:18-74 | The whole publication |
| `DetailRequests.NodeDetailRequests.ReadLegacyBase` | cmd/unbounded-net-controller/detail_legacy.go:76-101 | The base for a delta: the unexpired snapshot of this revision and identity |
| `DetailRequests.NodeDetailRequests.CloseLocked` | cmd/unbounded-net-controller/detail_requests.go:381-434 | The end of the run loop |
| `DetailCacheEffects.ObservedCache` | cmd/unbounded-net-controller/detail_legacy.go:18-74 | What a publication does to the snapshots: its own is stored with the given revision, the others stay or are dropped |
| `DetailCacheEffects.LegacyBaseCache` | cmd/unbounded-net-controller/detail_legacy.go:76-101 | A delta base is the cached status of exactly that revision, and reading it stores nothing |
| `DetailCacheEffects.NextCache` | cmd/unbounded-net-controller/detail_cache.go:62-164 | Apart from publications, an event drops snapshots or stores an on-demand reply, never a delta base |
| `PeerIdentity.EncodingIsExact` | cmd/unbounded-net-controller/peer_measurements.go:22-42 | The length-prefixed encoding of two peer lists is the same if and only if their ordered identities are |
| `PeerIdentity.HashPeerIdentities` | cmd/unbounded-net-controller/peer_measurements.go:22-42 | Hashes exactly that encoding |
| `PeerIdentity.PeerIdentityDigest` | internal/net/status/measurements.go:17-44 | Accepts exactly the lists whose names are present and identities distinct, with the digest of their encoding |
| `PeerIdentity.ValidatePeerIdentity` | cmd/unbounded-net-controller/peer_measurements.go:44-60 | With or without a memo of an earlier list, accepts the same lists with the same digest, as long as the two encodings do not collide |
| `PeerIdentity.ApplyPeerMeasurements` | cmd/unbounded-net-controller/peer_measurements.go:70-117 | All or nothing: applies exactly when every column fits, the identities are valid and named by the digest; identities and order are preserved |
| `PeerIdentity.ColumnsApply` | internal/net/status/measurements.go:67-100 | A receiver with the same metadata accepts a sender's columns if and only if the 32-bit count does not wrap |
| `PeerIdentity.ColumnsRoundTrip` | internal/net/status/measurements.go:67-100 | Columns give a peer back if and only if its handshake is absent, or is non-zero and within 64-bit nanoseconds of the Unix epoch |
| `StatusRuns.NoLostUpdate` | cmd/unbounded-net-controller/node_status.go:266-459 | Over every interleaving of a delta's read and commit with full stores, overviews, source changes, deletions and re-creations, rebinding and on-demand replies: a delta that commits yields exactly the merge of the state at its commit, one revision later; otherwise no entry changes |
| `StatusRuns.LandingIsExact` | cmd/unbounded-net-controller/node_status.go:405-459 | The same for one commit, from any later state in which old addresses keep their meaning |
| `StatusRuns.RunKeeps` | cmd/unbounded-net-controller/node_legacy.go:38-81 | In every reachable state with details bound, a snapshot whose revision is the entry's belongs to a legacy entry whose overview is its projection; snapshots never run ahead; and an old address still means the old entry |
| `StatusRuns.BaseIsCurrent` | cmd/unbounded-net-controller/node_status.go:266-314 | A delta base is the current wire state: never an on-demand snapshot, never older than a later overview |
| `StatusRuns.RevisionIsReused` | cmd/unbounded-net-controller/node_status.go:508-518 | Deletion and re-creation reuse revision one for other contents, so the address and not the revision must be compared |
| `StatusRuns.EmptyIsCoupled` | cmd/unbounded-net-controller/node_status.go:52-55 | A new cache satisfies the coupling |
| `StatusRuns.MergeKeepsMemo` | cmd/unbounded-net-controller/node_status.go:316-348 | The memo kept with a merge is the digest of the merged peers |
| `StatusRuns.FullKeeps` | cmd/unbounded-net-controller/node_status.go:76-122 | A full store keeps the coupling |
| `StatusRuns.SummaryKeeps` | cmd/unbounded-net-controller/node_overview.go:61-101 | An overview store keeps the coupling and disqualifies older snapshots as bases |
| `StatusRuns.TransportKeeps` | cmd/unbounded-net-controller/node_status.go:527-573 | A source change keeps the coupling |
| `StatusRuns.RemoveKeeps` | cmd/unbounded-net-controller/node_status.go:508-518 | A deletion leaves no snapshot that a re-created entry could match |
| `StatusRuns.RequireKeeps` | cmd/unbounded-net-controller/node_legacy.go:31-53 | Thinning every entry keeps the coupling |
| `StatusRuns.BindKeeps` | cmd/unbounded-net-controller/node_legacy.go:16-29 | Binding a manager that has seen no publication keeps the coupling |
| `StatusRuns.ReadKeeps` | cmd/unbounded-net-controller/node_status.go:266-314 | Reading a base keeps the coupling |
| `StatusRuns.LandKeeps` | cmd/unbounded-net-controller/node_status.go:405-459 | Committing keeps the coupling |
| `StatusRuns.ManageKeeps` | cmd/unbounded-net-controller/detail_requests.go:86-434 | Whatever the detail manager does on its own keeps the coupling |
| `StatusCache.MergeDelta` | cmd/unbounded-net-controller/node_status.go:316-403 | The field-by-field merge succeeds exactly when the measurements apply, and gives the merged status and its memo |
| `StatusCache.NodeStatusCache.constructor` | cmd/unbounded-net-controller/node_status.go:52-55 | An empty, unbound cache |
| `StatusCache.NodeStatusCache.AdmitLocked` | cmd/unbounded-net-controller/node_legacy.go:55-81 | Builds the entry, committing the full status to the bound manager |
| `StatusCache.NodeStatusCache.StoreFullChecked` | cmd/unbounded-net-controller/node_status.go:76-122 | The whole full store |
| `StatusCache.NodeStatusCache.StoreOverviewChecked` | cmd/unbounded-net-controller/node_overview.go:48-101 | Refuses a foreign name or inconsistent counts, else replaces the entry at the next revision |
| `StatusCache.NodeStatusCache.ChangeSourceIf` | cmd/unbounded-net-controller/node_status.go:527-573 | Changes the source only for the expected owner |
| `StatusCache.NodeStatusCache.DeleteNode` | cmd/unbounded-net-controller/node_status.go:508-518 | Removes the entry and forgets the node |
| `StatusCache.NodeStatusCache.ReadForDelta` | cmd/unbounded-net-controller/node_status.go:266-314 | The first section of a delta |
| `StatusCache.NodeStatusCache.CommitDelta` | cmd/unbounded-net-controller/node_status.go:409-459 | The last section: a swap guarded by entry address and base |
| `StatusCache.NodeStatusCache.RequireDetailsLocked` | cmd/unbounded-net-controller/node_legacy.go:38-53 | The loop over all entries, in any order |
| `StatusCache.NodeStatusCache.Bind` | cmd/unbounded-net-controller/node_legacy.go:16-29 | Thins every entry and binds the manager |
| `PullerPump.RunKeeps` | cmd/gantry/main.go:1674-1860 | In every state of every interleaving: gate, admission and run counters equal the calls holding a slot; each in-flight digest and each advertised digest has exactly one holder |
| `PullerPump.NextKeeps` | cmd/gantry/main.go:1674-1860 | Every atomic step of every call keeps that |
| `PullerPump.DecideIsLegal` | cmd/gantry/main.go:1716-1860 | Every step takes only what its call lacks and is free, gives only what it holds, and keeps the rest |
| `PullerPump.PumpIsSafe` | cmd/gantry/main.go:1674-1860 | Running pulls stay within the configured limit (at least one), admitted ones within four times that, a digest has at most one pull, and an ended call has released each thing it took exactly once |
| `PullerPump.ShutdownIsFinal` | cmd/gantry/agent_shutdown.go:84-101 | Once the wait for the closed gate has returned, no pull or re-advertise is running, no slot is held, and none can start, ever |
| `PullerPump.ShutdownDrains` | cmd/gantry/main.go:1644-1660 | Behind a closed gate at most eight steps per call inside remain, in any interleaving |
| `PullerPump.DrainProgresses` | cmd/gantry/main.go:1835-1857 | While anything is inside the gate, some call inside can take a step, even with every run slot taken |
| `PullerPump.DrainIsBounded` | cmd/gantry/main.go:1835-1857 | The steps taken inside a closed gate never exceed the ranks of the calls inside |
| `PullerPump.EntryIsOwned` | cmd/gantry/main.go:1782-1825 | An in-flight entry has exactly one owner, and its start time |
| `PullerPump.ClaimRuns` | internal/gantry/mirror/nf5.go:188-251 | A claim that was given up was a pull that ran if and only if no guard of a fallback (token, jitter, recheck) turned it down in between |
| `PullerPump.PumpClaimRuns` | cmd/gantry/main.go:1782-1860 | A claim of the pump itself that was given up was a pull that ran |
| `PullerPump.PiggybackOnFallback` | internal/gantry/mirror/nf5.go:188-251 | For every configuration and digest there is a whole run from the empty state in which a please-pull is told it is already pulling although nothing ever pulls |
| `PullerPump.PumpGate.TryAdd` | cmd/gantry/main.go:1619-1634 | Counts one more exactly while accepting |
| `PullerPump.PumpGate.Done` | cmd/gantry/main.go:1636-1642 | Counts one less |
| `PullerPump.PumpGate.Close` | cmd/gantry/main.go:1644-1652 | Stops accepting |
| `PullerPump.InflightMap.Start` | internal/gantry/inflight/inflight.go:142-168 | Claims the digest unless claimed; returns the entry's start time either way |
| `PullerPump.InflightMap.Done` | internal/gantry/inflight/inflight.go:53-65 | Drops the claim |
| `PullerPump.Pump.constructor` | cmd/gantry/main.go:1674-1684 | Empty semaphores over the given gate and map |
| `PullerPump.Pump.Screen` | cmd/gantry/main.go:1716-1784 | The checks before any reservation change nothing |
| `PullerPump.Pump.Advertise` | cmd/gantry/main.go:1686-1714 | Re-advertising: one at a time per digest, only inside the gate |
| `PullerPump.Pump.Admission` | cmd/gantry/main.go:1797-1832 | Reserve, admit, claim, and undo on a lost race |
| `PullerPump.Pump.Pull` | cmd/gantry/main.go:1835-1857 | The detached pull releases run, admission and gate in that order |
| `LeaseFence.FencesExclude` | cmd/unbounded-net-controller/lease_fence.go:14-76 | In every run without a voluntary release, whatever delays, failures and late replies: two processes that trust their lease at one instant are the same, and it is the recorded holder, provided the window is at most the lease duration times the slowest clock rate |
| `LeaseFence.WindowTooLong` | cmd/unbounded-net-controller/lease_fence.go:14-30 | With any longer window some run lets two processes trust the lease at once |
| `LeaseFence.ReleaseOverlaps` | cmd/unbounded-net-controller/lease_fence.go:72-75 | With a voluntary release, for every window, two processes may trust the lease at once until the reply clears the fence |
| `LeaseFence.RunKeeps` | cmd/unbounded-net-controller/lease_fence.go:58-100 | Every deadline comes from an applied write of its process, and after an applied write the lease is its writer's for a full duration |
| `LeaseFence.TrustIsHolding` | internal/net/controller/site_controller.go:216-226 | A process that trusts its lease is the recorded holder and its record has not lapsed |
| `LeaseFence.Observe` | cmd/unbounded-net-controller/lease_fence.go:58-76 | A failed write changes nothing; a write for another holder clears; an own write extends to its start plus the window and never shortens |
| `LeaseFence.Fence.ObserveWrite` | cmd/unbounded-net-controller/lease_fence.go:58-76 | The method does that |
| `LeaseFence.Fence.constructor` | cmd/unbounded-net-controller/lease_fence.go:39-41 | Not held |
| `InformerLifecycle.RunKeeps` | cmd/unbounded-net-node/gateway_informer_lifecycle.go:77-296 | In every state of every interleaving of start, requirement changes, retire, close and context ends, each generation's handlers, informers and context are as its phase says |
| `InformerLifecycle.FieldsAreTruthful` | cmd/unbounded-net-node/gateway_informer_lifecycle.go:77-87 | retiring holds exactly when an active generation is no longer required; starting implies no active generation |
| `InformerLifecycle.AbandonedIsCleaned` | cmd/unbounded-net-node/gateway_informer_lifecycle.go:157-296 | No handler is removed twice; a generation that is over has been cancelled and every handler it added removed, however it ended |
| `InformerLifecycle.AtMostOneCurrent` | cmd/unbounded-net-node/gateway_informer_lifecycle.go:157-296 | Apart from generations still being torn down, at most one is live |
| `InformerLifecycle.OneLiveGeneration` | cmd/unbounded-net-node/gateway_informer_lifecycle.go:157-296 | If a start takes effect only when no live generation is being torn down, at most one generation is ever live |
| `InformerLifecycle.StartDuringTeardown` | cmd/unbounded-net-node/gateway_informer_lifecycle.go:262-296 | A start that takes effect while a live generation is being torn down can bring up a second live one |
| `InformerLifecycle.DisorderOverlaps` | cmd/unbounded-net-node/gateway_informer_lifecycle.go:157-296 | So that condition is exact: any run from the initial state that would break it with its next start can go on to two live generations |
| `InformerLifecycle.TwoLiveGenerations` | cmd/unbounded-net-node/gateway_informer_lifecycle.go:157-296 | Such a run exists: start, commit, no longer required, retire, required again, start |
| `InformerLifecycle.OwnerFinishes` | cmd/unbounded-net-node/gateway_informer_lifecycle.go:157-251 | Every owner's step can be taken and is one of finitely many, so a generation ends active or gone |
| `InformerLifecycle.OnlyOwnersMove` | cmd/unbounded-net-node/gateway_informer_lifecycle.go:157-296 | Nothing but its owner moves a generation, except that retire and close take the active one |
| `InformerLifecycle.ReadyIsExact` | cmd/unbounded-net-node/gateway_informer_lifecycle.go:89-118 | Ready means exactly that what is required is active and synced, or that nothing is required or left over |
| `InformerLifecycle.GatewayInformerLifecycle.constructor` | cmd/unbounded-net-node/gateway_informer_lifecycle.go:52-58 | The initial state |
| `InformerLifecycle.GatewayInformerLifecycle.ChangeRequired` | cmd/unbounded-net-node/gateway_informer_lifecycle.go:77-87 | Sets the requirement and retiring, and cancels a start that is no longer wanted |
| `InformerLifecycle.GatewayInformerLifecycle.BeginStart` | cmd/unbounded-net-node/gateway_informer_lifecycle.go:157-184 | Begins a generation exactly when required, none is active and none is starting |
| `InformerLifecycle.GatewayInformerLifecycle.CommitStart` | cmd/unbounded-net-node/gateway_informer_lifecycle.go:232-250 | Makes the generation active exactly when still required and not cancelled |
| `InformerLifecycle.GatewayInformerLifecycle.RecordStartFailure` | cmd/unbounded-net-node/gateway_informer_lifecycle.go:253-260 | Ends the start |
| `InformerLifecycle.GatewayInformerLifecycle.TakeForRetire` | cmd/unbounded-net-node/gateway_informer_lifecycle.go:262-274 | Takes the active generation exactly when it is that one and no longer required; otherwise changes nothing |
| `InformerLifecycle.GatewayInformerLifecycle.TakeForClose` | cmd/unbounded-net-node/gateway_informer_lifecycle.go:280-290 | Takes whatever is active and cancels a start |
| `InformerLifecycle.GatewayInformerLifecycle.Readiness` | cmd/unbounded-net-node/gateway_informer_lifecycle.go:89-118 | The readiness answer |
| `VirtualLayer.ReadAt` | cmd/racer-loadgen/image.go:198-240 | For every offset and buffer, exactly that slice of header, counter-mode keystream and zeros; end of file exactly when the content runs out; nothing else touched; no 64-bit overflow |
| `VirtualLayer.HashedBytes` | cmd/racer-loadgen/image.go:103-118 | Reading with a buffer of any length rebuilds the same content |
| `VirtualLayer.SlicesJoin` | cmd/racer-loadgen/image.go:103-118 | Neighbouring slices join, so any chunking gives the same bytes |
| `VirtualLayer.FillPayload` | cmd/racer-loadgen/image.go:222-233 | Starting at the offset's block and skipping within it gives the keystream from that byte on |
| `VirtualLayer.CtrStream.Take` | cmd/racer-loadgen/image.go:226-233 | A generator that encrypts successive counter blocks yields the keystream byte by byte |
| `VirtualLayer.CtrStream.XorKeyStream` | cmd/racer-loadgen/image.go:226-233 | Xors exactly the next bytes of the keystream into the given part |
| `VirtualLayer.IncrementAddsOne` | cmd/racer-loadgen/image.go:226-228 | Incrementing the big-endian counter with carry adds one |
| `VirtualLayer.LeadingZeros` | cmd/racer-loadgen/image.go:226-227 | A 64-bit number in the low half of the counter block is that number |
| `VirtualLayer.CopyHeader` | cmd/racer-loadgen/image.go:215-219 | Copies what fits of the header |
| `VirtualLayer.NewVirtualLayer` | cmd/racer-loadgen/image.go:174-196 | The size of an accepted layer fits in 64 bits and is a whole number of tar blocks |
| `VirtualLayer.Jitter` | cmd/racer-loadgen/image.go:56-81 | Refuses exactly the sizes whose spread would not fit |
| `VirtualLayer.PayloadBytes` | cmd/racer-loadgen/image.go:92-94 | The spread computed in 64 bits is exact, positive and fits |
| `RangedRead.ExactCover` | cmd/racer-loadgen/ranged.go:50-100 | For every size and range size whose count does not wrap, every rotation that fits, every worker count and every interleaving, a read that reports success has written every byte exactly once and nothing else, and its total is the size |
| `RangedRead.CoverIsExact` | cmd/racer-loadgen/ranged.go:69-82 | Every byte lies in the computed range of exactly one index if and only if the rotation fits: there is at most one range, or it is not negative and no sum with an index wraps, or only the last does, to a multiple of the count |
| `RangedRead.MisfitMisses` | cmd/racer-loadgen/ranged.go:50-100 | For every other rotation and worker count there is a whole run from the initial state that reports success with a byte of the object never written |
| `RangedRead.AttemptsAreBounded` | cmd/racer-loadgen/ranged.go:102-140 | In every run, whatever the rotation and the count, no range is attempted more than once plus the retries |
| `RangedRead.RunKeeps` | cmd/racer-loadgen/ranged.go:50-140 | When the rotation fits, every byte has been written once below its range's mark and not at all above, unless the read can only fail; every claimed range is held, finished or given up after cancellation |
| `RangedRead.OneRange` | cmd/racer-loadgen/ranged.go:69-80 | Without wrapping, every byte lies in the rotated range of exactly one index, for every rotation |
| `RangedRead.WrappedReadsNothing` | cmd/racer-loadgen/ranged.go:69-75 | If the range count wraps, no byte is read and success is still reported |
| `RangedRead.CopyRange` | cmd/racer-loadgen/ranged.go:102-140 | Writes consecutive bytes from the start of the range; the first attempt that completes it, exhausts the retries or meets cancellation decides, and how it ended and the resumes counted are as that attempt says |
| `RangedRead.WriteTo` | cmd/racer-loadgen/ranged.go:50-100 | A single worker's read that does not fail has written exactly the ranges as computed, and its total is what it wrote |
| `RangedRead.PlanIsExact` | cmd/racer-loadgen/ranged.go:69-82 | Those ranges together are the object if and only if the rotation fits |
| `RangedRead.CohortsAreEven` | cmd/racer-loadgen/backend.go:151-161 | Neighbouring cohorts start the rounded-down or rounded-up share apart |
| `RangedRead.CohortsAreInside` | cmd/racer-loadgen/backend.go:151-161 | Cohorts start below the range count, the first at zero |
| `RangedRead.RangeRotation` | cmd/racer-loadgen/backend.go:138-164 | Panics exactly for an empty object with plain rotation; otherwise returns zero without rotation, the computed start of the node's cohort, or the host hash modulo the count |
| `RangedRead.CohortIsExact` | cmd/racer-loadgen/backend.go:160-161 | The computed start of a cohort is its even share if and only if the product fits in 64 bits |
| `RangedRead.CohortLeaves` | cmd/racer-loadgen/backend.go:160-161 | It lies before the object if and only if the wrapped product is negative by at least the number of cohorts, and otherwise is a range of the object |
| `RangedRead.SomeCohortLeaves` | cmd/racer-loadgen/backend.go:160-161 | When ranges and cohorts add up to at most 2^63 + 1, some cohort leaves the object if and only if the last cohort's product exceeds 64 bits |
| `RangedRead.PickedRotation` | cmd/racer-loadgen/backend.go:118-128 | With at most 2^62 ranges, the rotation picked for a process fits if and only if there is at most one range, no cohort is used, or its cohort does not leave the object |
| `RangedRead.TrailingNumber` | cmd/racer-loadgen/backend.go:167-182 | The decimal suffix of at most eighteen digits, without overflow |
| `RangedRead.ParseInt` | cmd/racer-loadgen/backend.go:179-181 | Up to eighteen digits read as a decimal number |
| `FrameReader.BufferPool.ReadFrame` | cmd/unbounded-net-controller/ws_frame_buffer.go:72-125 | For every read script, and whatever others do with the pool meanwhile, the result is the fold of the script; it terminates on space left and empty reads left; on error the reader has given back every buffer it took, otherwise it holds exactly the returned one, which is not pooled |
| `FrameReader.WholeOrTooBig` | cmd/unbounded-net-controller/ws_frame_buffer.go:72-125 | A message that ends properly is returned whole when it fits in 2 MiB and is too big exactly when it has a byte more |
| `FrameReader.DeliveredIsWhole` | cmd/unbounded-net-controller/ws_frame_buffer.go:72-125 | Whatever is delivered is the whole message, which ended properly and fits |
| `FrameReader.BufferPool.Get` | cmd/unbounded-net-controller/ws_frame_buffer.go:39-55 | The smallest class that holds the size, never a buffer in use; no panic up to the frame limit |
| `FrameReader.BufferPool.Put` | cmd/unbounded-net-controller/ws_frame_buffer.go:57-70 | The buffer is no longer in use or held and is pooled at most once |
| `FrameReader.BufferPool.Grow` | cmd/unbounded-net-controller/ws_frame_buffer.go:94-99 | The bytes move to the next class and the old buffer is given back |
| `FrameReader.BufferPool.Round` | cmd/unbounded-net-controller/ws_frame_buffer.go:76-117 | One read of the loop and what it leaves of the outcome |
| `FrameReader.BufferPool.constructor` | cmd/unbounded-net-controller/ws_frame_buffer.go:30-37 | Nothing pooled or in use |
| `FrameReader.ScriptReader.Read` | cmd/unbounded-net-controller/ws_frame_buffer.go:79-106 | A reader that writes only the bytes it reports |
| `FrameReader.IdleStaysBelow64MiB` | cmd/unbounded-net-controller/ws_frame_buffer.go:15-28 | Idle buffers never take up 64 MiB |
| `FrameReader.IdleIsBounded` | cmd/unbounded-net-controller/ws_frame_buffer.go:24-28 | Nor more than the per-class limit allows, for any limit |
| `ClusterCache.HighestWins` | cmd/unbounded-net-controller/cluster_status_cache.go:143-178 | Whatever the order of delivery, a node holds its highest-numbered overview, or is as before if none is new |
| `ClusterCache.OrderDoesNotMatter` | cmd/unbounded-net-controller/cluster_status_cache.go:143-178 | Two orders of the same notifications leave the same overviews and numbers |
| `ClusterCache.PatchKeepsIndex` | cmd/unbounded-net-controller/cluster_status_cache.go:173-235 | The index keeps pointing at rows in range that bear the name, if and only if an applied notification carries its node's name |
| `ClusterCache.DeliverKeepsIndex` | cmd/unbounded-net-controller/cluster_status_cache.go:143-235 | So does any sequence of notifications that carry their node's name |
| `ClusterCache.IndexIsInjective` | cmd/unbounded-net-controller/cluster_status_cache.go:173-235 | No two names share a row |
| `ClusterCache.ClusterStatusCache.PatchNode` | cmd/unbounded-net-controller/cluster_status_cache.go:143-240 | The patch in place |
| `ClusterCache.ClusterStatusCache.Get` | cmd/unbounded-net-controller/cluster_status_cache.go:278-293 | A copy sharing nothing a patch can change |
| `ClusterCache.ClusterStatusCache.GetThenPatch` | cmd/unbounded-net-controller/cluster_status_cache.go:278-293 | A snapshot stays as taken through any number of later patches |
| `ClusterCache.ClusterStatusCache.Rebuild` | cmd/unbounded-net-controller/cluster_status_cache.go:96-118 | Indexes the rows it is given; the event numbers stay |
| `ClusterCache.ClusterStatusCache.constructor` | cmd/unbounded-net-controller/cluster_status_cache.go:45-53 | Nothing built yet |
| `SummaryDelta.ReplayIsFaithful` | cmd/unbounded-net-controller/websocket.go:224-271 | After any number of rounds, changed or not, a client that folded every message holds the latest summary up to number and timestamp, whether or not it checks numbers |
| `SummaryDelta.DeltaReplays` | cmd/unbounded-net-controller/status_types.go:341-454 | Applying the computed difference to the previous summary gives the current one |
| `SummaryDelta.NoDeltaMeansSame` | cmd/unbounded-net-controller/status_types.go:341-454 | No delta is computed if and only if nothing but number and timestamp differs |
| `SummaryDelta.ClearedIsNotUnchanged` | cmd/unbounded-net-controller/status_types.go:333-339 | A cleared list is sent as an empty list, an unchanged one is not sent |
| `SummaryDelta.SortedIsDetermined` | cmd/unbounded-net-controller/status_types.go:230 | Sorted rows are determined by their set, so keeping rows by name loses nothing |
| `SummaryDelta.RoundKeepsStep` | cmd/unbounded-net-controller/websocket.go:224-271 | One round keeps broadcaster and client in step |
| `SummaryDelta.ComputeDelta` | cmd/unbounded-net-controller/status_types.go:343-454 | The loops compute that difference, or nothing |
| `SummaryDelta.DiffRows` | cmd/unbounded-net-controller/status_types.go:419-447 | Updated rows in order and removed names |
| `SummaryDelta.WSBroadcaster.BroadcastUpdate` | cmd/unbounded-net-controller/websocket.go:224-271 | One round as a method |
| `SummaryDelta.WSBroadcaster.constructor` | cmd/unbounded-net-controller/websocket.go:59-66 | Nothing sent yet |

## Left out

- HTTP and WebSocket handlers, JSON and protobuf coding, metrics, logging and flag handling: messages are decoded values.
- Kubernetes clients, informers, containerd, the registry client and the Racer client: their answers are parameters.
- The detail observer bridge (node_detail_observer.go): nothing outside tests installs it.
- The registry of WebSocket senders behind a dispatch, and the command write itself: a worker starts, may fail and ends.
- The timer goroutines of the detail manager and cache: a timer firing is an event that may happen at any time, so nothing is said about when it does.
- Node status cache: the read-only accessors and the change callbacks; CleanupStaleEntries, which is a run of deletions under one lock.
- The counting rules behind an overview (peers, routes, mismatches): a function parameter.
- Rebinding a status cache to a manager it was bound to before: each leadership term makes a new manager.
- Cluster cache: how a rebuild collects its rows, a rebuild racing with patches, and spare capacity of the row slice (a longer list is a new array).
- Summaries: building one from the cluster status, client registration, and messages dropped when a client's buffer is full; the order of removed names; a client's row order.
- Puller pump: a nil gate, the negative cache and store behind their answers, and what a pull does before it ends. Of a fallback call, how its guards decide and what its fetch does before it ends.
- Lease fence: the election algorithm itself, of which only the take-over rule is assumed; a fence deadline at the zero time.
- Informer lifecycle: prepare, which is a run of the modelled sections, and the text of errors and readiness reasons.
- Frame reader: the WebSocket connection. Other goroutines' use of the pool appears as one step that may change anything but the reader's own buffers.
- Virtual layer: the tar writer, the cipher and the floating-point product behind the jitter are parameters; a header is a whole number of tar blocks that leaves room for padding and end blocks in the 4096 bytes reserved.
- RangedRead.CopyRange: the length of the delay between attempts and the text of an error are not modelled; an ending says only whether the read broke off, fell short or was interrupted.
- RangedRead.WriteTo: one worker only; any number of workers is covered by the state machine.
- PeerIdentity.ValidatePeerIdentity: assumes that the encodings of the two lists at hand do not collide under the hash, and that lengths fit in 64 bits.
- DetailRequests.NodeDetailRequests.constructor: requires the positive timeout that NewNodeDetailRequests checks.
- StatusCache.MergeDelta: raw JSON deltas are taken as already parsed; unknown fields are not modelled.
