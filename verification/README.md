# Models of a cloud controller's reconcilers

The cloud controller keeps cloud resources in line with Kubernetes objects: each reconcile
builds a wanted model, reads what the cloud has, and closes the gap with add, delete and
update calls, any of which may fail. This project models the reconcilers and proves what they
promise: that they converge, that they never touch what the user owns, and what stays true over
every run however it is cut short.

The cloud is explicit state. A table, a group or a set of listeners is a map in a class whose
methods are the cloud's calls; a constant `fault: nat -> bool` says which calls fail, so that a
contract holds for every pattern of failures, and clauses that need success say so. Methods that
change the cloud state their effect whatever fails, then what success adds.

| file | what it models |
|---|---|
| `Cidr.dfy`, `RouteSync.dfy` | address blocks, and synchronising the routes of a table with the nodes |
| `NamedKeys.dfy` | the names by which the controller marks what is its own |
| `Backends.dfy`, `SlbGroups.dfy` | the diff of one server group, its batched calls and the retry after a quota error |
| `Weights.dfy`, `EndpointSlices.dfy` | backend weights, and the addresses taken from endpoint slices |
| `GroupApply.dfy` | describing, applying and cleaning up the groups of a load balancer |
| `ListenerAttributes.dfy`, `StableSort.dfy`, `ListenerApply.dfy` | the attribute update of a listener, the sort the plan goes through, planning and executing |
| `NlbServers.dfy`, `NlbListeners.dfy` | servers and listeners of a network load balancer |
| `Lifecycle.dfy` | finalizer, creation, deletion and hash label of a load balancer as a state machine, and the actions allowed |
| `LifecycleSafety.dfy`, `LifecycleExactness.dfy`, `LifecycleOutcome.dfy` | that every allowed run is safe, that no more can be allowed, and what an undisturbed run achieves |
| `Tags.dfy`, `Attempt.dfy` | the tag update, and attempts spaced in time |

## Where the code does less than it seems to promise

Each of these is a lemma, with the exact condition unless said otherwise; none is a change to the
model.

- Deletion forgets a load balancer that it can no longer find, or no longer looks for
  (`LifecycleExactness.AllowedIsExact`). That happens after
  an edit that names a load balancer to reuse while one is held, or while the present run is about
  to take one up;
  an edit that hands the service to another class while the finalizer is there, since the cleanup
  then adopts or creates a load balancer before it drops the finalizer;
  an update that takes both the lookup tag and the default name away: a custom name together with
  an additional tag of the lookup key, a custom name while the tag is missing and there is no room
  for it or it has another value, or such an additional tag while the name is custom already;
  a failure to tag a new load balancer with a custom name, or an existing one that is about to be
  renamed;
  a change of type between the start of a run and its finalizer step, which reads the service
  afresh, unless a published address bars creation and deletion leaves nothing to be found.
  The condition is exact at every moment: an edit is allowed exactly when the service is harmless
  wherever the present run may stop, and so is a crowding tag that also leaves the run's own update
  findable (`Lifecycle.StaysHarmless`). Edits that ask for nothing of this kind are allowed at any
  time, but for the change of type (`LifecycleExactness.OrdinaryIsAllowed`).
- A server group does not converge when a present backend on a wanted instance's server and port
  has another address and is the service's, or stands in for a wanted one that is absent: addresses
  are compared for ENI backends only (`Backends.Converges`).
- Ports that name one reused group and want different backends for it undo each other: each is
  applied from the same old view, and deletes what is only the other's. A group that held both ends
  empty, and the next run fills it again (`SlbGroups.RivalsEmpty`). Wanted groups all reach their
  outcomes only when those that share a group agree on what it is to hold
  (`GroupApply.ReachedMeansAgreement`), and then they do (`GroupApply.ApplyVGroups`).
- The second diff of a converged server group updates again when a wanted server also appears on
  another port or with other data (`Backends.SecondDiff`).
- A default tag's value can be overwritten by a local tag of the same key, and such a tag is sent
  again on every run: the list of local tags without default keys is computed and not used
  (`Tags.DefaultsSurviveExactly`, `Tags.FurtherUpdateIsEmpty`). Without local tags nothing is untagged.
- Whether a pass over endpoint slices asks for a requeue, or fails, depends on the order and spread
  of the endpoints (`EndpointSlices.OrderMattersExactly`).
- A text of the cluster's own block other than the one the library prints counts as strictly
  contained (`Cidr.StrictnessOfText`).
- A listener name whose port is written with a leading zero or a plus sign loads, and prints
  differently (`NamedKeys.ListenerKeyPrintsBack`).
- Of the settings of a listener that are set and that its protocol has, an access list and its type
  are ignored unless access control is set on, a drain timeout unless draining is, a persistence
  timeout where the present listener has none, and the first forwarding header always
  (`ListenerAttributes.SetIsFollowed`).
- A user's HTTP listener on a wanted port that already forwards as wanted keeps the user's
  description, so that a later run does not delete it when it is no longer wanted; every other
  listener taken over gets the service's description and is then deleted as its own
  (`ListenerApply.LaterSpares`).
- An HTTP listener whose forwarding port and forwarding mark disagree is recreated on every run
  (`ListenerApply.CreatedIsFixed`); the builder of listeners makes none.

## Model

| member | source | states |
|---|---|---|
| `Cidr.ContainsRoute` | pkg/controller/route/manager.go:201-223 | the first result is containment of every address of the parsed block in the outer one, the second is that unless the text is the outer block's own; fails exactly on text that does not parse |
| `Cidr.EndsDecideContainment` | pkg/controller/route/manager.go:208-222 | testing the first and last address of a canonical block decides containment of all its addresses, both ways |
| `Cidr.NestedOrDisjoint` | pkg/controller/route/manager.go:201-223 | any two blocks are nested or share no address |
| `Cidr.MutualContainmentIsEquality` | pkg/controller/route/manager.go:201-223 | canonical blocks containing each other are the same block |
| `Cidr.ParsesExactly` | pkg/controller/route/manager.go:206-209 | what parses is an address of 32 or of 128 bits with a prefix no longer than it is, into the block of that length that has it |
| `Cidr.StrictnessOfText` | pkg/controller/route/manager.go:219-222 | the second result means strictly smaller exactly when the text is not another text of the outer block, with a host bit or another spelling |
| `Cidr.OtherTexts` | pkg/controller/route/manager.go:206-222 | every block has such texts, which parse to it |
| `RouteSync.GetIPv4RouteForNode` | pkg/controller/route/utils.go:9-29 | the loop gives the scan of the listed CIDRs, and a block it gives is canonical |
| `RouteSync.ScanEndsAtFirstIPv4` | pkg/controller/route/utils.go:11-27 | the scan ends at the first entry that is IPv4 or does not parse, with that block or the error |
| `RouteSync.ScanFallsBackToLast` | pkg/controller/route/utils.go:11-28 | without an IPv4 entry the last block listed is the node's |
| `RouteSync.IPv4Wins` | pkg/controller/route/utils.go:15-27 | of a dual-stack node the block is the first IPv4 one of the plural list, else the singular one if that is IPv4, and an IPv6 one only when none is IPv4 |
| `RouteSync.ConflictWithNodes` | pkg/controller/route/manager.go:150-172 | true exactly when the route takes addresses of some node's block without being that node's route |
| `RouteSync.OwnRouteConflictsWithNone` | pkg/controller/route/manager.go:150-172 | with disjoint node blocks no node's own route conflicts with any node |
| `RouteSync.CreateRouteForInstance` | pkg/controller/route/manager.go:30-62 | at most the wanted route is created, only where its CIDR was free; a returned route is in the table and meets the query; on a free CIDR one is returned exactly when one of three calls does not fail; without failures and with the CIDR free or already right, a route is returned |
| `RouteSync.RouteReconciler.FindRoute` | pkg/controller/route/manager.go:174-199 | a found route meets the query and comes from the list, or from the table when the list is empty; none found means none there; it fails exactly on an empty query or a failing live lookup |
| `RouteSync.RouteReconciler.AddRouteForNode` | pkg/controller/route/route_controller.go:207-258 | nothing is deleted, at most the wanted route is created; an error means that nothing changed and a call failed or the CIDR is taken, success that the table or the list has the route or the lookup failed; without failures, and unless a cached or taken CIDR misleads, the table has it; the memory gains at most this node's route |
| `RouteSync.RouteReconciler.DeleteConflicts` | pkg/controller/route/manager.go:105-121 | only in-cluster routes that conflict with a node are deleted; without failures none such remains |
| `RouteSync.RouteReconciler.AddRoutes` | pkg/controller/route/manager.go:123-147 | only own routes of eligible nodes are created; without failures every eligible node has its route though the list predates the deletions |
| `RouteSync.RouteReconciler.SyncTableRoutes` | pkg/controller/route/manager.go:91-148 | with disjoint node blocks in the cluster and no failure, every node with a block and a provider, not excluded, of known readiness and not being deleted, has its route and no in-cluster route conflicts; whatever fails, only such nodes' routes are created, no node's own route is deleted, routes outside the cluster stay, and a synchronised table is left as it is; an error is a failing list or a bad cluster range, and changes nothing |
| `NamedKeys.SplitJoin` | pkg/model/load_balancer.go:255-314 | splitting a joined name gives the parts back exactly when no part has the separator |
| `NamedKeys.VGroupKeyRoundTrip` | pkg/model/load_balancer.go:295-314 | loading a printed group key gives it back exactly when its parts are free of the separator and its prefix is the default |
| `NamedKeys.VGroupKeyPrintsBack` | pkg/model/load_balancer.go:302-314 | a group name that loads prints back to itself |
| `NamedKeys.ListenerKeyRoundTrip` | pkg/model/load_balancer.go:248-270 | loading a printed listener key gives it back exactly under the same condition |
| `NamedKeys.ListenerKeyPrintsBack` | pkg/model/load_balancer.go:255-270 | a listener name that loads prints back exactly when its port is in plain decimal |
| `NamedKeys.AtoiReads` | pkg/model/load_balancer.go:260-263 | a port reads as a number if it is digits of at most 64 bits with an optional sign |
| `NamedKeys.ItoaIsPlain` | pkg/model/load_balancer.go:248-253 | a printed port has a sign only before a negative number and no leading zero |
| `NamedKeys.SGKeyRoundTrip` | pkg/model/nlb/nlb.go:326-349 | the same round trip for server group keys of a network load balancer |
| `NamedKeys.SGKeyPrintsBack` | pkg/model/nlb/nlb.go:333-349 | a server group name that loads prints back to itself |
| `NamedKeys.NlbListenerKeyRoundTrip` | pkg/model/nlb/nlb.go:284-310 | the same round trip for listener keys of a network load balancer |
| `NamedKeys.NeverTakenForAnothers` | pkg/controller/service/clbv1/vgroups.go:283-292 | a backend carrying one owner's key is taken for another owner's only when they are the same |
| `NamedKeys.NlbNeverTakenForAnothers` | pkg/controller/service/nlbv2/server_groups.go:1184-1192 | the same for servers of a network load balancer |
| `NamedKeys.ListenerNeverTakenForAnothers` | pkg/controller/service/clbv1/listeners.go:1004-1012 | the same for listeners of a classic load balancer |
| `NamedKeys.NlbListenerNeverTakenForAnothers` | pkg/model/nlb/nlb.go:291-310 | the same for listeners of a network load balancer |
| `NamedKeys.ManagedIsMarked` | pkg/model/load_balancer.go:255-314 | what belongs to a service is exactly what bears its mark: the default prefix, a port, and its name, namespace and cluster; of a listener the port reads as a number |
| `NamedKeys.NlbManagedIsMarked` | pkg/model/nlb/nlb.go:291-349 | the same for network load balancers, with the protocol in the mark |
| `NamedKeys.VGroupKeyInjective` | pkg/model/load_balancer.go:295-300 | equal printed keys have the same owner and port |
| `Backends.Diff` | pkg/controller/service/clbv1/vgroups.go:204-281 | the three lists are the unwanted own, the absent wanted and the outdated wanted backends, in order |
| `Backends.DiffByKeys` | pkg/controller/service/clbv1/vgroups.go:204-281 | against any group: additions are the wanted backends whose key is absent and unshadowed, deletions the own keys neither wanted nor shadowing, and every wanted key with other data is updated |
| `Backends.Converges` | pkg/controller/service/clbv1/vgroups.go:85-128 | however much of the additions went through, removing, updating and adding again gives the user's backends overridden by the wanted ones, exactly when no key shadows a wanted backend |
| `Backends.ConvergesAtOnce` | pkg/controller/service/clbv1/vgroups.go:97-118 | with all additions done at first, adding again changes nothing |
| `Backends.SecondDiff` | pkg/controller/service/clbv1/vgroups.go:204-281 | in a converged group nothing is added or deleted again, and nothing is updated exactly when every entry on a wanted server is on its port and with its data |
| `SlbGroups.BatchAdd` | pkg/controller/service/clbv1/vgroups.go:162-174 | chunk by chunk, only listed backends are stored; without errors all are; within the quota and without failures there are none |
| `SlbGroups.BatchRemove` | pkg/controller/service/clbv1/vgroups.go:176-188 | only listed keys are dropped; without errors all are |
| `SlbGroups.BatchUpdate` | pkg/controller/service/clbv1/vgroups.go:190-202 | only listed backends are stored over present ones; without errors all are |
| `Common.ChunksAreFew` | pkg/controller/service/reconcile/backend/backend.go:255-303 | the batches are made in as few calls as their size allows, 39 unless configured |
| `SlbGroups.DoneIsDesired` | pkg/controller/service/clbv1/vgroups.go:97-128 | calls without an error, retried or not, end in the desired group exactly when no key shadows a wanted backend |
| `SlbGroups.UpdateVServerGroup` | pkg/controller/service/clbv1/vgroups.go:85-128 | whatever fails, one group changes and only by storing wanted and dropping own unwanted backends; without an error it is the user's backends overridden by the wanted ones, also through the retry, exactly when it was unshadowed; shadowed it never is; there is no error when no call fails and the quota holds; a group that has it all stays |
| `SlbGroups.ShadowedNeverDesired` | pkg/controller/service/clbv1/vgroups.go:204-238 | whatever of the calls went through, a shadowed group is not the desired one |
| `SlbGroups.ClosedStays` | pkg/controller/service/clbv1/vgroups.go:97-128 | calls from a view however old change nothing in a group that has all that is wanted and nothing to delete |
| `SlbGroups.RivalsEmpty` | pkg/controller/service/clbv1/vgroups.go:204-238 | two lists apart from each other, applied from one old view to a group that holds just both, leave it empty |
| `SlbGroups.RetryFits` | pkg/controller/service/clbv1/vgroups.go:97-128 | after a partial first round the retried additions fit the quota |
| `Weights.PodNumberAlgorithm` | pkg/controller/service/clbv1/vgroups.go:820-837 | in place, weight 100 outside local mode, else the number of backends on the server |
| `Weights.PodPercentAlgorithm` | pkg/controller/service/clbv1/vgroups.go:846-882 | in place, each backend's share of the total, at least one unless the total is zero |
| `Weights.RemoveDuplicatedECS` | pkg/controller/service/clbv1/vgroups.go:678-690 | the first backend of each server: ids distinct, none missing |
| `Weights.CountsAddUp` | pkg/controller/service/clbv1/vgroups.go:828-837 | counted once per server, the pods add up to all backends |
| `Weights.DefaultLocalConserves` | pkg/controller/service/clbv1/vgroups.go:671-690 | default local weights after deduplication sum to the number of backends before it |
| `Weights.PercentLocalIsClose` | pkg/controller/service/clbv1/vgroups.go:871-881 | for a total w of at least one: kept weights lie in 1..w and their sum misses w by less than the number of servers |
| `Weights.PercentElsewhereIsClose` | pkg/controller/service/clbv1/vgroups.go:858-868 | outside local mode the sum is in (w - n, w] when w >= n, and n otherwise |
| `Weights.DefaultElsewhere` | pkg/controller/service/clbv1/vgroups.go:820-827 | outside local mode a backend's default weight is 100 |
| `Weights.WeighAndKeepFirsts` | pkg/controller/service/clbv1/vgroups.go:671-675 | the two last steps of building local backends: the first backend of each server, with its share rounded down but at least one, or its number of pods, and with all of the above about the sum |
| `EndpointSlices.SetBackendsFromEndpointSlices` | pkg/controller/service/clbv1/vgroups.go:503-601 | addresses are exactly those of endpoints not terminating that are ready or have a gated pod with ready containers, each once, from its first qualifying listing, on the port its slice gives: the number, or that of the first entry of the name; fails exactly on reaching an unreadable pod; asks for a requeue exactly on reaching one to wait for |
| `EndpointSlices.JudgeIs` | pkg/controller/service/clbv1/vgroups.go:541-595 | an endpoint serves exactly if it is ready or its pod has the gate and ready containers, is waited for if its pod is not found or has the gate without them, and fails the pass if its pod cannot be read |
| `EndpointSlices.AdmittedOnce` | pkg/controller/service/clbv1/vgroups.go:531-598 | an address is taken exactly once if and only if some listing of it qualifies |
| `EndpointSlices.AdmittedIsFirst` | pkg/controller/service/clbv1/vgroups.go:531-598 | what is taken is the first qualifying listing of its address |
| `EndpointSlices.AddressesAreOrderFree` | pkg/controller/service/nlbv2/server_groups.go:543-646 | the same endpoints in any order and spread give the same addresses |
| `EndpointSlices.OrderMattersExactly` | pkg/controller/service/clbv1/vgroups.go:557-583 | requeue and error are the same for the same endpoints in every order and spread exactly when no address has such a listing, or one that does not serve has |
| `GroupApply.DescribeVServerGroups` | pkg/controller/service/clbv1/vgroups.go:130-160 | every group is shown; those of the service or reused in full with foreign backends marked, the others empty |
| `GroupApply.ApplyGroup` | pkg/controller/service/clbv1/model_applier.go:191-236 | one wanted group is tied to its first match, or to a new group; no other group changes; without an error the group holds the user's and the wanted backends |
| `GroupApply.FirstMatchIsFirst` | pkg/controller/service/clbv1/model_applier.go:193-212 | the group found is the first one of the id, or of the name where there is no id |
| `GroupApply.ApplyVGroups` | pkg/controller/service/clbv1/model_applier.go:189-240 | whatever fails no user backend is removed; on success each wanted group is tied to the group of its own id or name, the groups are the old and the created ones, with at most one creation per name and none for a known one; and unless keys or rivals stand in the way every group holds what is wanted, also those that share one when they agree; without failures and within the quota there is no error |
| `GroupApply.ReachedMeansAgreement` | pkg/controller/service/clbv1/model_applier.go:191-240 | the agreement is needed: where every wanted group has its outcome, those that share a group have the same |
| `GroupApply.NextIsReady` | pkg/controller/service/clbv1/model_applier.go:191-240 | at its turn the group of a wanted one is as it was, or new, or already as wanted by an earlier one |
| `GroupApply.AssociateListeners` | pkg/controller/service/clbv1/listeners.go:542-549 | in place, each listener gets the group id of its name unless it has one; fails exactly when a name has no group |
| `GroupApply.TiedToOwnGroup` | pkg/controller/service/clbv1/listeners.go:992-1000 | after applying the groups each listener is tied to the group of its own port |
| `GroupApply.CleanupGroup` | pkg/controller/service/clbv1/model_applier.go:308-333 | the service's own unused group is deleted, of another one only the service's backends are removed |
| `GroupApply.Cleanup` | pkg/controller/service/clbv1/model_applier.go:295-336 | no user backend is removed and no group a wanted one refers to is touched; on success the service's unused groups and its leftover backends are gone |
| `GroupApply.CleanupCleans` | pkg/controller/service/clbv1/model_applier.go:295-336 | the cleanup over a full view, in terms of the groups that were there |
| `GroupApply.Run` | pkg/controller/service/clbv1/model_applier.go:76-103 | over a whole apply run, whatever fails, no backend that does not parse to this service is removed; on success every wanted group is tied to the group of its id or name and every listener to that of its port, and of all groups no wanted one uses exactly those wholly the service's are gone, and its backends from the others it was shown; every group holds the user's and the wanted backends, for wanted groups that exist, are unshadowed and agree where they share one; listeners of a reused load balancer are tied only with override; every listener dealt with has a group; without failures, and if they fit the quota, the run succeeds |
| `ListenerAttributes.IsNeedUpdate` | pkg/controller/service/clbv1/listeners.go:688-990 | asks for an update exactly when the built listener differs from the present one |
| `ListenerAttributes.UpdateBySetting` | pkg/controller/service/clbv1/listeners.go:688-990 | the guards as a table: each setting of the update is the wanted one where it is followed and the present one elsewhere |
| `ListenerAttributes.NothingToUpdate` | pkg/controller/service/clbv1/listeners.go:688-990 | no update is asked for exactly when description and group are right and no followed setting differs |
| `ListenerAttributes.UpdateIsIdempotent` | pkg/controller/service/clbv1/listeners.go:688-990 | run on its own result it asks for none |
| `ListenerAttributes.SetIsFollowed` | pkg/controller/service/clbv1/listeners.go:703-981 | a corollary, for every listener and setting: what is set and the protocol has is taken over exactly when its guard holds or it was the same |
| `ListenerAttributes.UnsetIsLeftAlone` | pkg/controller/service/clbv1/listeners.go:703-981 | a corollary, for every listener and setting: what is not set, or what the protocol does not have, stays, but for the HTTPS certificate |
| `ListenerAttributes.CreatedIsUpToDate` | pkg/controller/service/clbv1/listeners.go:665-686 | a listener created with its defaults needs no update of its attributes |
| `ListenerAttributes.ProtocolsCompared` | pkg/controller/service/clbv1/listeners.go:703-981 | which settings the protocols have in common and which one has more than another |
| `ListenerAttributes.IgnoredExactly` | pkg/controller/service/clbv1/listeners.go:703-981 | which settings that are set and differ are ignored all the same, for every listener |
| `ListenerAttributes.CertificateFollows` | pkg/controller/service/clbv1/listeners.go:745-765 | the certificate of HTTPS always follows the wanted one, that of another protocol is never touched |
| `ListenerAttributes.DefaultsFillIn` | pkg/controller/service/clbv1/listeners.go:665-686 | creation fills in scheduler, bandwidth, health check and session stickiness where they are not set and the protocol has them, and nothing else |
| `StableSort.SliceStable` | pkg/controller/service/clbv1/model_applier.go:253-269 | sorting by a comparator that looks only at its first argument, by insertion blocks and symmetric merges, is a permutation that partitions |
| `ListenerApply.BuildActions` | pkg/controller/service/clbv1/listeners.go:550-598 | the plan: absent wanted listeners, all pairs of one key, unwanted own ones |
| `ListenerApply.PlanByIds` | pkg/controller/service/clbv1/listeners.go:551-598 | creations have exactly the absent wanted keys, deletions all present ones neither wanted nor foreign |
| `ListenerApply.UpdateHttp` | pkg/controller/service/clbv1/listeners.go:418-468 | one listener changes; a recreation deletes first; on success it is as updated or recreated and running |
| `ListenerApply.CreatedIsFixed` | pkg/controller/service/clbv1/listeners.go:407-472 | the next update leaves a created listener alone exactly when, for HTTP, forwarding port and mark agree |
| `ListenerApply.UpdatedIsFixed` | pkg/controller/service/clbv1/listeners.go:418-472 | and an updated one, whatever it was before |
| `ListenerApply.SortActions` | pkg/controller/service/clbv1/model_applier.go:253-269 | both lists keep their elements; HTTPS comes first among creations and last among deletions |
| `ListenerApply.DeletionRound` | pkg/controller/service/clbv1/model_applier.go:272-277 | the deletions in this order leave the wanted and the foreign listeners, whatever fails the foreign ones |
| `ListenerApply.ExecuteCreates` | pkg/controller/service/clbv1/model_applier.go:278-283 | no creation meets a taken key, and one that forwards to an HTTPS listener of the service finds it present |
| `ListenerApply.ExecuteUpdates` | pkg/controller/service/clbv1/model_applier.go:285-290 | the same for recreations, which delete wanted listeners only; on success every planned listener is updated and running |
| `ListenerApply.ApplyListeners` | pkg/controller/service/clbv1/model_applier.go:242-293 | on success exactly the wanted listeners, as wanted, and the foreign ones, untouched, which are those whose description does not bear the service's mark; at every call, whatever fails: no creation on a taken key, HTTPS present before what forwards to it, unwanted listeners deleted before any creation and the HTTPS ones after all others; nothing on a reused load balancer without override; nothing but the listing when settled |
| `ListenerApply.AppliedIsSettled` | pkg/controller/service/clbv1/model_applier.go:242-293 | what a successful apply leaves is settled, so that by the contract of ApplyListeners a second one makes no call but the one that lists |
| `ListenerApply.AppliedForwards` | pkg/controller/service/clbv1/listeners.go:418-468 | after a successful apply a wanted HTTP listener with marked forwarding forwards to the port asked for, or not at all |
| `ListenerApply.AppliedAttributes` | pkg/controller/service/clbv1/listeners.go:407-533 | after a successful apply a wanted listener has its description, its group and what it sets, but for what an update ignores or where it was left alone for forwarding |
| `ListenerApply.LaterSpares` | pkg/controller/service/clbv1/listeners.go:1004-1012 | ownership is read from the description: a later apply with other wanted listeners spares exactly the foreign ones and those taken over without a new description, and deletes the other ones taken over |
| `ListenerApply.PlanReaches` | pkg/controller/service/clbv1/listeners.go:535-598 | executing the plan leaves the wanted keys and the foreign ones, with the wanted attributes |
| `NlbServers.EqualityIsEquivalence` | pkg/controller/service/nlbv2/server_groups.go:1143-1159 | the comparison is symmetric and transitive, and reflexive exactly on supported types; it looks at type and server, and at the address unless the server is an instance |
| `NlbServers.Diff` | pkg/controller/service/nlbv2/server_groups.go:1093-1141 | absent wanted, unwanted own, and outdated wanted servers |
| `NlbServers.NlbGroup.Batch` | pkg/controller/service/reconcile/backend/backend.go:266-303 | chunk by chunk, going on after a failure; only listed servers are touched, and all when none fails |
| `NlbServers.Converges` | pkg/controller/service/nlbv2/server_groups.go:300-330 | add, remove and update give the user's servers overridden by the wanted ones |
| `NlbServers.FurtherDiffIsEmpty` | pkg/controller/service/nlbv2/server_groups.go:1093-1141 | after that a further diff is empty |
| `NlbServers.ClashNeverSettles` | pkg/controller/service/nlbv2/server_groups.go:1093-1159 | a diff is never empty for a list with clashing or unsupported servers |
| `NlbServers.UpdateServerGroupServers` | pkg/controller/service/nlbv2/server_groups.go:300-330 | whatever fails no user server is dropped; when all calls succeed the group is as desired |
| `NlbListeners.Associate` | pkg/controller/service/nlbv2/model_applier.go:267-275 | in place, each listener gets the id of the first group of its name; fails exactly when one has none |
| `NlbListeners.FirstOfIsFirst` | pkg/controller/service/nlbv2/model_applier.go:400-408 | the group found is the first one of the name, and there is none exactly when no group has the name |
| `NlbListeners.DeleteUnwanted` | pkg/controller/service/nlbv2/model_applier.go:277-301 | present ids are tied to the wanted listeners of their key; no wanted listener, and on a reused load balancer no foreign one, is deleted; on success all others are |
| `NlbListeners.SparedRemain` | pkg/controller/service/nlbv2/model_applier.go:277-301 | for a full list exactly the wanted keys, and on a reused load balancer the foreign listeners, remain |
| `NlbListeners.PlaceListener` | pkg/controller/service/nlbv2/model_applier.go:303-320 | updates the listener of its id or creates one where the key is free; others stay |
| `NlbListeners.UpdateNLBListener` | pkg/controller/service/nlbv2/listeners.go:164-187 | on success the listener runs with the wanted description and group; others stay |
| `NlbListeners.ApplyListeners` | pkg/controller/service/nlbv2/model_applier.go:259-323 | on success exactly the wanted listeners, each running with its description and with the group it came with or else the first group of its group name, and foreign ones only of a reused load balancer; whatever fails those, which do not bear the service's mark, are untouched and no creation meets a taken key; without failures it succeeds exactly when every group name is known |
| `LifecycleSafety.EveryRunIsSafe` | pkg/controller/service/clbv1/service_controller.go:290-368 | over every run of allowed actions, with failures after any step, edits and deletions at any time, and load balancers removed or tagged by hand: a load balancer created and not preserved exists only while the service has the finalizer, and there are never two |
| `LifecycleSafety.InvKept` | pkg/controller/service/clbv1/model_applier.go:46-75 | every allowed action keeps the invariant behind it |
| `LifecycleSafety.AttributeKeeps` | pkg/controller/service/clbv1/model_applier.go:106-187 | so does the step that creates, adopts, releases or deletes, gated by the hash |
| `LifecycleSafety.AddTagKeeps` | pkg/controller/service/clbv1/loadbalancer.go:91-100 | so does adding the lookup tag on update, or failing to where the name stays |
| `LifecycleSafety.RenameKeeps` | pkg/controller/service/clbv1/loadbalancer.go:189-199 | so does giving the name that is asked for |
| `LifecycleSafety.ExtraTagsKeeps` | pkg/controller/service/clbv1/loadbalancer.go:201-207 | so do the additional tags, which may overwrite the lookup tag |
| `Lifecycle.NameSafeIsExact` | pkg/controller/service/clbv1/loadbalancer.go:86-210 | an update leaves a load balancer findable exactly when an overwritten tag meets the default name and a new name meets the tag |
| `LifecycleSafety.UneditedStaysHarmless` | pkg/controller/service/clbv1/service_controller.go:290-368 | a run on a service that nobody edits meanwhile leaves it harmless wherever it stops, with any failures it goes on from |
| `LifecycleSafety.LossStaysHarmless` | pkg/controller/service/clbv1/model_applier.go:106-187 | so does a run whose load balancers are removed by hand, though it then creates where it would have updated |
| `LifecycleExactness.AllowedIsExact` | pkg/controller/service/clbv1/model_applier.go:119-169 | for every action at every moment of every run: allowed exactly when no run of allowed actions from there ends with a forgotten load balancer |
| `LifecycleExactness.HarmAheadIsDoom` | pkg/controller/service/clbv1/service_controller.go:290-368 | a run that may leave the service harmful at some point leads to a forgotten load balancer |
| `LifecycleExactness.OrdinaryIsAllowed` | pkg/controller/service/clbv1/service_controller.go:290-368 | an edit that asks for no name, lookup tag, reuse or other class is allowed at any time, unless it changes the type just before the finalizer step |
| `LifecycleExactness.CrowdingOrphans` | pkg/controller/service/clbv1/loadbalancer.go:91-100 | a load balancer without the lookup tag that is about to be renamed is forgotten if others fill up its tags before |
| `LifecycleExactness.RetirementOrphans` | pkg/controller/helper/finalizer.go:33-52 | a change of type just before the finalizer step leads to a forgotten load balancer unless creation is barred and deletion leaves nothing to be found |
| `LifecycleOutcome.CleanupFinishes` | pkg/controller/service/clbv1/service_controller.go:290-323 | an undisturbed run off duty ends without finalizer, label, published address and held load balancer; what was found is deleted, or kept without the lookup tag, and every other load balancer stays |
| `LifecycleOutcome.DeletedAtOnce` | pkg/controller/helper/finalizer.go:33-52 | a service without the finalizer disappears as soon as it is deleted, and leaves no held load balancer |
| `LifecycleOutcome.ReconcileSettles` | pkg/controller/service/clbv1/service_controller.go:325-368 | an undisturbed run on duty ends with one load balancer, held and findable, found and updated or else created, with exactly the name and tag the update gives |
| `LifecycleOutcome.ReturnSettles` | pkg/controller/service/clbv1/service_controller.go:290-368 | a service that was cleaned up and comes back on duty gets a load balancer again |
| `LifecycleOutcome.ReuseSettles` | pkg/controller/service/clbv1/model_applier.go:170-187 | a run that reuses the user's load balancer, or one without the lookup tag, publishes it, makes none and changes no other |
| `LifecycleOutcome.ReuseRefused` | pkg/controller/service/clbv1/model_applier.go:176-183 | one with the lookup tag, or one that is not there, is refused and nothing but the finalizer changes |
| `LifecycleOutcome.ReuseLetsGo` | pkg/controller/service/clbv1/model_applier.go:119-149 | a service that goes off duty lets the load balancer it reused go as it is |
| `LifecycleOutcome.DeletedAtFinalizer` | pkg/controller/helper/finalizer.go:33-52 | a service that goes off duty just before the finalizer step gives its load balancer back in that run |
| `LifecycleOutcome.SettledStays` | pkg/controller/service/clbv1/service_controller.go:325-368 | a further run changes nothing |
| `LifecycleOutcome.LostIsNotRecreated` | pkg/controller/service/clbv1/model_applier.go:148-152 | a published load balancer that is gone is not made again |
| `Lifecycle.LookSucceeds` | pkg/provider/alibaba/slb/loadbalancer.go:33-76 | lookup by tag, then by name, finds the one findable load balancer or none |
| `Tags.DiffLoadBalancerTags` | pkg/util/tags.go:5-29 | local tags absent or different remotely, and remote tags of no local key |
| `Tags.UpdatedIs` | pkg/controller/service/clbv1/loadbalancer.go:253-311 | with distinct local keys: local tags have their local value, others are gone unless of a default key, and then unchanged |
| `Tags.DefaultsSurviveExactly` | pkg/controller/service/clbv1/loadbalancer.go:275-288 | default values survive exactly when no local tag claims a default key with another value |
| `Tags.FurtherUpdateIsEmpty` | pkg/controller/service/clbv1/loadbalancer.go:288-291 | a further update has nothing to untag, and nothing to tag exactly when no local tag has a default key |
| `Tags.UpdateLoadBalancerTags` | pkg/controller/service/clbv1/loadbalancer.go:202-311 | nothing, and no call, without local tags; else by as many calls as there is to do the tags become the local ones, and of the others those of default keys, and of the reuse mark on a reused load balancer, as they were; whatever fails none of these is untagged |
| `Attempts.Attempt.Next` | pkg/util/attempt.go:37-51 | an attempt is granted at the present time of the clock, a delay after the one before, and within the bound; true when one was promised, false once over; false only after max(1, Min) attempts |
| `Attempts.Attempt.HasNext` | pkg/util/attempt.go:64-74 | true promises the next attempt, false rules it out, whatever the clock does |
| `Attempts.Attempt.Ask` | pkg/util/attempt.go:61-74 | the answer of HasNext is what the following Next does, both ways |
| `Attempts.TryAll` | pkg/util/attempt.go:25-59 | a caller using only Next until it says no gets between max(1, Min) and max(1, Min, rounds) attempts, at times of the clock a delay apart; on an exact clock the most |
| `Attempts.RoundsIs` | pkg/util/attempt.go:37-51 | c delays stay under the total exactly when c is less than the rounds |
| `Attempts.RoundsIsCeiling` | pkg/util/attempt.go:25-33 | the rounds are the total over the delay, rounded up |

## Left out

- Cloud clients, tokens, metadata, metrics, logging, events, configuration and flags, among them the switch that forbids public load balancers and dry runs: input and output only.
- Text of errors: an error is a result value; only the errors the code tells apart are told apart.
- Service reads from a stale cache: a run reads the service as it is when it starts, and again when it adds the finalizer.
- The service hash: taken as injective. Labels are written by the controller alone.
- Updates of load balancer attributes other than name and tags: only that they may fail. Of the check that a load balancer may be reused only the part about the lookup tag.
- LifecycleSafety.EveryRunIsSafe: the user is taken not to remove the finalizer, the label, the lookup tag or the name by hand, and an additional tag that repeats the lookup tag with its own value is taken as none.
- LifecycleSafety.ExtraTagsKeeps: additional tags that fill a load balancer up to its limit are not counted there; they are read as a following `Crowd`.
- Group and listener work inside a lifecycle run is one step there; it is modelled in `GroupApply` and `ListenerApply`.
- Lifecycle of network load balancers: the same shape.
- `NamedKeys`: `Key` also fills in a missing prefix in its receiver; the model returns the filled key instead.
- Cidr.ContainsRoute: an IPv4 address written in IPv6 form is not folded into IPv4.
- `RouteSync`: one table at a time; routes with no instance behind them, and the node's network condition.
- `SlbGroups`: backends are told apart by server, address and port; a call on backends takes effect whole or not at all.
- `NlbServers`: servers are told apart by the identity the code compares, so one server on two ports is one entry.
- GroupApply.ApplyVGroups: the contents are not claimed for a wanted list that names one backend twice with different data; where wanted groups that share one disagree, only that not all outcomes are reached.
- `GroupApply.ApplyVGroups` and `ListenerApply.ApplyListeners`: lists of the source that grow are sequences; what an iteration writes into the model is written when the loop ends.
- Attempts.Attempt.Next: integers are unbounded; durations near the limit of 64 bits are not covered.
- `Weights`: weights beyond 32 bits in the network load balancer variant are not covered; a total is at most 100.
- Backends from legacy endpoints, ENI lookup, the choice of nodes in local and cluster mode, and node exclusion: easy members beside the slices and weights.
- NlbListeners.UpdateNLBListener: of the attributes only description, group and running state are modelled; the others are field comparisons of the kind shown for classic listeners.
- Attribute updates of server groups: the same.
- `ListenerAttributes`: the comparisons of the source, one statement for each attribute, are one loop over a table of settings with their guards.
- Application load balancers, ingress, private zones, node and pod controllers, event handlers and mock providers.
