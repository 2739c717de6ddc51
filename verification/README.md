# Passmower: several writers agreeing on shared state

Passmower is an identity provider that runs as several pods, next to other
instances of itself, against one Kubernetes API and one Redis. This project
models the places where those writers have to agree, and proves what they agree
on, for every interleaving and every failure the adapters let through.

Each concurrent protocol is a value `World` with a `Step` for every action that
can happen between two awaits; an action that is not enabled changes nothing,
and `Run` folds a sequence of actions, so "for all runs" is "for all sequences
of actions". What the source writes as an object with fields is also a class
whose methods are proved to do what the steps do.

| file | what it is about |
|---|---|
| `LeaderElection.dfy` | the operator lease: read, conditional write, takeover, release |
| `StatusMutation.dfy` | the read-compute-write loop every status update goes through |
| `ClientSecret.dfy` | overlapping reconciles converging on one client secret |
| `ClientOwnership.dfy` | instances racing to claim a client |
| `RedisGrants.dfy` | tokens, the lists that index them by grant, and revocation |
| `ClientSweep.dfy` | watch replays and the delete-only sweep bringing Redis back in line |
| `WipeRecovery.dfy` | restarting the operators when Redis lost its data |
| `ActivityTracker.dfy` | sign-ins projected onto users and clients by many pods |
| `ScimDirectory.dfy` | the SCIM users and groups of one connection |
| `ScimWrites.dfy` | SCIM requests that overlap on one user |
| `EmailOwnership.dfy` | which account owns an address, and recording it |
| `LoginResolution.dfy` | which account a sign-in resolves to |
| `EmailReconcile.dfy` | the coalescing scheduler of the email reconcile |
| `EventHooks.dfy` | dispatching user event hooks across restarts and handovers |
| `Wrappers.dfy` | the option type |

## What turned out false, and when it holds

The code is modelled as it is. Where a promise does not hold of it, the exact
condition under which it does is proved instead:

- One leader at a time, from whatever lease the pods find, holds exactly when the
  retry period is no longer than the lease duration (`LeaderElection.SingleLeader`).
- A pod refused by the API server (401/403) keeps the operators running, except
  when a renewal is refused and its own last renewal is past the deadline, or it
  never had one: then it stands down with its timer cleared and stays down
  (`LeaderElection.RefusedPodLeads`).
- A client secret is never rotated exactly when the Secret is at first absent or
  holds a value, an empty one being none; two adopters of one without a value
  diverge (`ClientSecret.OneSecretForEver`).
- Ownership of a client is stable exactly when no ADDED event carries invalid
  claim mappings, or the operator is the middleware one
  (`ClientOwnership.OwnershipIsStable`).
- Revoking a grant deletes its live tokens and nothing else, at all times, exactly
  when every upsert met a guard: its id is in no other grant's list, and the
  list's life covers the token's and still covers its other tokens'
  (`RedisGrants.EveryTokenIsIndexed`, `RedisGrants.StepKeepsIndexExactly`). Positive
  lifetimes on ids that keep their grant are enough (`RedisGrants.LifetimesSuffice`);
  a token without a lifetime followed by one with a lifetime misses it
  (`RedisGrants.TokenWithoutLifetimeEscapes`), and so does an id moved to another
  grant (`RedisGrants.ReusedIdIsRevokedWithItsOldGrant`).
- The Redis ids of the two client kinds collide exactly when an OIDCClient's
  namespace is `middleware-` followed by the other's namespace
  (`ClientSweep.ClientIdCollision`).
- A client that exists and has its record keeps it through a sweep exactly when the
  sweep is not past confirming an absence of its id, nor confirming the absence of
  another client under it (`ClientSweep.SurvivesExactly`); one created after the
  confirmation loses its record (`ClientSweep.LateClientIsSwept`).
- A sweep after a replay leaves no stale record it may take out exactly if none was
  outside the `Clients` set, where a write cut short can leave one
  (`ClientSweep.OrphansOutsideTheSetStay`).
- A wipe is noticed exactly when the first marker write that takes effect is
  reported as a success (`WipeRecovery.WipeIsRepaired`).
- At most one generation of operators is up, and none after the outer stop, exactly
  if no start() throws once it has brought up an operator
  (`WipeRecovery.OneGenerationRuns`). What such a start() left up stays up for ever
  (`WipeRecovery.StrandedForEver`), and since the marker is back already, no check
  tries again (`WipeRecovery.FailedRestartIsFinal`).
- A SCIM directory stays sound exactly unless a group with members is deleted
  while the LIST of users fails: the failed LIST reads as an empty one, so the
  group is retired and its members keep it, and the grant
  (`ScimDirectory.EveryDirectoryIsSound`, `ScimDirectory.DeleteGroupIsSoundExactly`).
- SCIM requests on one user lose nothing exactly when at most one of them is
  between its read and its write (`ScimWrites.OneWriterAtATime`); a PATCH that a
  member replacement overtakes writes the old memberships back
  (`ScimWrites.MembershipIsLost`).
- Creating a SCIM group overwrites a live one exactly when that one sits under
  the id the new external id gives, as after its own external id was replaced
  (`ScimDirectory.CreationSparesLiveGroups`).
- Event hooks see each change once exactly when at most one handler of a user may
  run at a time (`EventHooks.OneHandlerAtATime`), which the watch does not see to;
  and a first listing that fails does not defer anything: the watch then
  dispatches Added for every existing user
  (`EventHooks.KubeOidcUserEventHookOperator.FirstRunWithoutListing`).
- Losing the generation store to a wipe goes unnoticed for a user exactly when its
  next report is a deletion or a MODIFIED of a generation not yet dispatched
  (`EventHooks.WipeIsInvisible`), and seeding it anew exactly when the generation
  found had been dispatched (`EventHooks.ReseedingIsInvisible`).
- The same sign-in made twice finds the account it enrolled exactly when it
  brought a stable identity or proved some address
  (`LoginResolution.SigningInAgainFindsTheAccount`).

## Model

| member | source | states |
|---|---|---|
| LeaderElection.HandoverSafety | src/services/leader-election.js:122-205 | in every interleaving, a direct handover of the lease waits out the recorded duration since the old holder's last renewal, and leaseTransitions counts exactly the acquisitions |
| LeaderElection.StrayLeaderIsOverdue | src/services/leader-election.js:88-107 | a pod that leads though the lease does not name it has stopped, was told to lead without a lease, or is more than the recorded duration past its last write |
| LeaderElection.NextTickSettles | src/services/leader-election.js:122-205 | in every interleaving, once a tick begun without the lease ends in a decision, a success or a conflict, the pod has stood down, or it took the lease again on the way, and then the lease names it or it is stopped, refused or overdue once more |
| LeaderElection.AnsweredTick | src/services/leader-election.js:122-184 | an uninterrupted, answered tick ends holding the lease if and only if the pod held it or it was vacant; then the pod leads on a lease renewed now, counted and dated as acquired only if it changed hands; otherwise the lease is untouched and the pod stands down |
| LeaderElection.CleanStopHandsOver | src/services/leader-election.js:85-107 | after a stop the next tick of any other pod takes over at once if and only if the release arrived or the lease had run out |
| LeaderElection.SingleLeader | src/services/leader-election.js:122-205 | with atomic ticks, and whatever lease is there at first, at most one pod leads in every reachable state if and only if the retry period is no longer than the lease duration |
| LeaderElection.LateTickMakesTwoLeaders | src/services/leader-election.js:146-153 | from any lease, the run that shows two leaders when a pod ticks later than the lease lasts |
| LeaderElection.RefusedPodLeads | src/services/leader-election.js:207-236 | a refused pod leads without a lease, except past the deadline on a renewal |
| LeaderElection.TickIsARun | src/services/leader-election.js:122-144 | the uninterrupted tick is one run of the interleaved protocol |
| LeaderElection.StopIsARun | src/services/leader-election.js:88-107 | the uninterrupted stop is one run of the interleaved protocol |
| LeaderElection.ConflictedRenewal | src/services/leader-election.js:193-221 | in any world, a pod whose renewal met a conflict leads if and only if it led and its last renewal is no older than the deadline; nothing else changes |
| LeaderElection.AnswerDecides | src/services/leader-election.js:124-236 | in any world, what every answer to a read or a write does to the pod that waited for it |
| LeaderElection.FailedTick | src/services/leader-election.js:122-144 | a stopped pod's tick does nothing, and a failed call leaves the pod as it was |
| LeaderElection.BeginsExactly | src/services/leader-election.js:75-116 | what begins a tick and a stop, what a crash leaves, and time passing |
| LeaderElection.Election.Tick | src/services/leader-election.js:122-144 | one tick leaves pod and lease as the specification of an atomic tick says, for every answer of the API server |
| LeaderElection.Election.AcquireLease | src/services/leader-election.js:155-184 | pod and lease after a create or takeover for every answer: lead on success, stand down on a conflict, lead without a lease when refused |
| LeaderElection.Election.RenewLease | src/services/leader-election.js:186-222 | pod and lease after a renewal for every answer: on a conflict it leads on exactly if it led and renewed within the deadline, on a refusal exactly if it renewed within it, and a rethrown error changes nothing but perhaps the lease |
| LeaderElection.Election.HandleApiError | src/services/leader-election.js:224-236 | 401/403 clears the timer and leads; anything else is rethrown |
| LeaderElection.Election.Stop | src/services/leader-election.js:88-107 | stopping gives the lease back only if it is still ours, and always stands down, whatever becomes of the read and the write |
| LeaderElection.LeaseApi.PutLease | src/adapters/kubernetes.js:403-409 | a write is stored whole as the next version or not at all, is a conflict exactly when the lease is no longer the one read, and so replaces exactly what it was computed from |
| StatusMutation.NothingIsLost | src/adapters/kubernetes.js:248-294 | under any interleaving the stored status is the fold of the committed mutations in commit order, each computed from exactly the version it replaced |
| StatusMutation.CommitsAtMostOnce | src/adapters/kubernetes.js:249-292 | a call commits at most once in at most three attempts; success means exactly one commit; giving up on conflicts means none and three other writes in the meantime |
| StatusMutation.GetDecides | src/adapters/kubernetes.js:251-261 | what every answer to the GET makes of a call, in any world |
| StatusMutation.PutDecides | src/adapters/kubernetes.js:262-292 | what every answer to the PUT makes of a call and of the resource, in any world |
| StatusMutation.UndisturbedCall | src/adapters/kubernetes.js:248-294 | a call nothing disturbs stores and returns the mutation of the status, or finds nothing to change |
| StatusMutation.OthersExactly | src/adapters/kubernetes.js:217-246 | what replaces, other edits and deletions do |
| StatusMutation.Api.MutateStatus | src/adapters/kubernetes.js:248-294 | the retry loop under conflicts, deletions and failures: the first attempt not overtaken decides what is stored and returned |
| ClientSecret.OneSecretForEver | src/operators/kube-oidc-client-operator.js:146-194 | over all overlapping reconciles the secret never changes once installed and Redis is only given that value, if and only if the Secret is at first absent or holds a non-empty value |
| ClientSecret.NeverRotated | src/operators/kube-oidc-client-operator.js:133-145 | once a value is installed no continuation replaces it or writes another |
| ClientSecret.UndisturbedReconcile | src/operators/kube-oidc-client-operator.js:45-90 | one reconcile by itself, whatever fails: it gets to Redis if and only if the calls it needed were answered, and Redis is then given what the Secret holds |
| ClientSecret.ReplayLooksFirst | src/operators/kube-oidc-client-operator.js:58-60 | a replayed ADDED leaves everything alone if Redis has the record and reconciles if not |
| ClientSecret.LossesExactly | src/operators/kube-oidc-client-operator.js:87-89 | what a wipe, a deletion and an error elsewhere do |
| ClientSecret.RacingAdoptersDiverge | src/operators/kube-oidc-client-operator.js:173-194 | the run in which two adopters of a Secret without a value each install their own |
| ClientSecret.SecretStore.CreateSecret | src/adapters/kubernetes.js:320-340 | creation never overwrites; what each answer, a failure included, says about the Secret |
| ClientSecret.SecretStore.PatchSecret | src/adapters/kubernetes.js:342-366 | a patch needs an existing Secret; after an answered one it holds the value |
| ClientSecret.OidcClient.ReconcileClientSecret | src/operators/kube-oidc-client-operator.js:146-171 | whatever call fails, an existing value stays; the reconcile goes on exactly when the calls it needed were answered, and then carries what the Secret holds |
| ClientSecret.OidcClient.AdoptKubeSecret | src/operators/kube-oidc-client-operator.js:173-194 | adoption keeps an existing value, generates one only where none is, and throws exactly when the patch is not answered |
| ClientOwnership.OwnershipIsStable | src/operators/kube-oidc-client-operator.js:45-131 | at most one owner is ever made, it stays, and only it writes the Redis record, in every interleaving and through spec edits, if and only if no ADDED event carries invalid mappings or the operator is the middleware one |
| ClientOwnership.OneClaimWins | src/operators/kube-oidc-middleware-client-operator.js:40-91 | of racing instances the one past its claim is the owner, and its claim is the only one |
| ClientOwnership.AddedByItself | src/operators/kube-oidc-client-operator.js:45-90 | an ADDED event by itself: every write it makes, for any owner, mappings and failures |
| ClientOwnership.ModifiedByItself | src/operators/kube-oidc-client-operator.js:104-131 | a MODIFIED event by itself, which looks at the owner before the mappings |
| ClientOwnership.DeletedByItself | src/operators/kube-oidc-client-operator.js:304-316 | a DELETED event by itself: the owner takes the record away and writes no status |
| ClientOwnership.TouchExactly | src/adapters/kubernetes.js:217-246 | any other write keeps the owner and moves the version |
| ClientOwnership.RejectionSteals | src/operators/kube-oidc-client-operator.js:286-297 | for any owner and any two instances, the run in which reporting invalid mappings overwrites the owner |
| ClientOwnership.Resource.ReplaceStatus | src/adapters/kubernetes.js:217-246 | a status replace lands only on the version it read, and is answered only if it landed |
| ClientOwnership.CreateMiddlewareClient | src/operators/kube-oidc-middleware-client-operator.js:40-68 | the ADDED path from a possibly stale event, with failures and other writers: at most one claim, one Redis write and one report, and nothing on someone else's client |
| RedisGrants.EveryTokenIsIndexed | src/adapters/redis.js:340-386 | over every run, revocation works at all times if and only if every upsert met its guard |
| RedisGrants.IndexedMeansRevocable | src/adapters/redis.js:442-448 | each live token is listed by its grant for as long as it lives, and nothing else live is, if and only if revoking any grant now or later deletes exactly its live tokens |
| RedisGrants.StepKeepsIndexExactly | src/adapters/redis.js:352-361 | one step from an indexed store keeps the index if and only if it is no upsert or meets the guard on the lifetime, the list's TTL and the other grants' lists |
| RedisGrants.LifetimesSuffice | src/adapters/redis.js:348-361 | positive lifetimes on ids that keep their grant meet every guard; each live token is then in a list that ends no earlier |
| RedisGrants.RevocationIsComplete | src/adapters/redis.js:442-448 | whatever happens between the read and the delete of a revocation, a token of the grant survives only if it was issued in between |
| RedisGrants.RevocationIsConfined | src/adapters/redis.js:442-448 | revoking a grant deletes no other grant's token |
| RedisGrants.TokensComeFromUpserts | src/adapters/redis.js:340-386 | a live token was there before or was issued by an upsert of the run |
| RedisGrants.KeyLivesItsLifetime | src/adapters/redis.js:340-350 | a key nobody rewrites or deletes lives exactly as long as its lifetime, through any run, revocations of other keys included |
| RedisGrants.UpsertStores | src/adapters/redis.js:270-386 | what an upsert stores: the key and its end, and the grant list with its end, for every kind of model and lifetime |
| RedisGrants.RevokeDeletes | src/adapters/redis.js:442-448 | a revocation deletes the keys its live list names, and the list |
| RedisGrants.TokenWithoutLifetimeEscapes | src/adapters/redis.js:352-361 | for any keys, an upsert with a lifetime after one without misses the guard, and the earlier token escapes revocation |
| RedisGrants.ReusedIdIsRevokedWithItsOldGrant | src/adapters/redis.js:352-361 | in any indexed store, moving a token to another grant misses the guard, and revoking the old grant deletes it |
| RedisGrants.RedisAdapter.UpsertKey | src/adapters/redis.js:340-386 | entry, grant list and their expiries after an upsert |
| RedisGrants.RedisAdapter.DestroyKey | src/adapters/redis.js:429-440 | only the key goes |
| RedisGrants.RedisAdapter.RevokeByGrantId | src/adapters/redis.js:442-448 | every listed key and the list itself go, nothing else |
| ClientSweep.ReplayThenSweepConverges | src/services/client-redis-reconciler.js:81-172 | replaying every owned client and sweeping once leaves exactly the enabled ones, keeps what is out of scope or of another kind, drops every other record the set names and whose absence is confirmed; the set agrees unless a record was outside it and no replay wrote it anew |
| ClientSweep.OrphansOutsideTheSetStay | src/adapters/redis.js:375-380 | no stale record the sweep may take out is left if and only if none was outside the set, where a write cut short leaves it |
| ClientSweep.ReplayTouched | src/operators/kube-oidc-client-operator.js:45-90 | after any sequence of replays a replayed client has a record exactly when it is enabled, and is in the set too unless it had a record outside it that no replay wrote anew |
| ClientSweep.ReplayUntouched | src/operators/kube-oidc-client-operator.js:75-77 | an id nobody replays stays as it was |
| ClientSweep.LiveClientSurvives | src/services/client-redis-reconciler.js:122-172 | however the sweep interleaves with other writers, a client that exists throughout keeps its record |
| ClientSweep.SurvivesExactly | src/services/client-redis-reconciler.js:122-172 | a recorded client keeps its record in every run that leaves both alone if and only if the sweep has not confirmed its id absent, nor is about to for another client under that id |
| ClientSweep.UninterruptedSweep | src/services/client-redis-reconciler.js:81-172 | the interleaved steps with nothing in between take out exactly the orphans, in any order of members; a failed LIST ends the sweep |
| ClientSweep.OrphanExactly | src/services/client-redis-reconciler.js:102-172 | who goes out, by kinds, selection, the LIST's namespace, records and confirmation |
| ClientSweep.OthersExactly | src/services/client-redis-reconciler.js:158-161 | what others do between a sweep's steps |
| ClientSweep.LateClientIsSwept | src/services/client-redis-reconciler.js:146-150 | the window the confirmation leaves open |
| ClientSweep.ClientIdCollision | src/models/oidc-client.js:235-237 | two clients share a Redis id if and only if they are the same or a namespace spells the middleware prefix |
| ClientSweep.ClientRedisReconciler.ListLiveClientIds | src/services/client-redis-reconciler.js:102-120 | the ids of all listed resources in scope, or nothing if any list failed |
| ClientSweep.ClientRedisReconciler.RemoveOrphans | src/services/client-redis-reconciler.js:122-156 | removes exactly the orphans: not live, and either without a record or of a swept kind, in scope and confirmed absent |
| ClientSweep.ClientRedisReconciler.Sweep | src/services/client-redis-reconciler.js:81-98 | a failed list or a running sweep changes nothing; otherwise exactly the orphans go |
| WipeRecovery.OneGenerationRuns | src/services/redis-wipe-detector.js:82-101 | whenever no start() is in progress at most one generation of operators is up, and none after the outer stop even if it lands during a restart, if and only if no start() throws with an operator up |
| WipeRecovery.WhatIsUp | src/app.js:64-100 | in every run, what is up between restarts is exactly every generation whose start() threw with an operator up, one for each such throw, and the current one unless it was stopped or the last start() threw |
| WipeRecovery.StrandedForEver | src/services/redis-wipe-detector.js:85-94 | what a start() that threw left up stays up through every check, restart and stop |
| WipeRecovery.WipeIsRepaired | src/services/redis-wipe-detector.js:56-94 | after a wipe the checks restart the operators if and only if the first marker write to take effect is reported as a success; then the current generation is stopped and one started after the wipe is up once start() returns |
| WipeRecovery.UnnoticedWipe | src/services/redis-wipe-detector.js:56-78 | a marker write that lands but reports a failure hides the wipe from every later check |
| WipeRecovery.Restarter.BeginCheck | src/services/redis-wipe-detector.js:56-73 | a check up to the restart it triggers, for every outcome of the marker write |
| WipeRecovery.Restarter.BringUp | src/app.js:64-68 | start() has its first operator watching |
| WipeRecovery.Restarter.AbandonCheck | src/services/redis-wipe-detector.js:85-94 | a start() that threw: the captured stop stays the old one, and what was brought up stays up |
| WipeRecovery.Restarter.EndCheck | src/services/redis-wipe-detector.js:83-94 | what follows a start() that returned: it is adopted, or ended at once if everything was stopped meanwhile |
| WipeRecovery.Restarter.StopAll | src/services/redis-wipe-detector.js:96-100 | the outer stop ends the generation captured last |
| WipeRecovery.FailedRestartIsFinal | src/services/redis-wipe-detector.js:56-94 | after a start() that threw no check changes anything; up is only what such start()s left up, and the outer stop reaches none of it |
| ActivityTracker.RecentIsNewest | src/services/activity-tracker.js:116-135 | folding all flushes of all pods, cut to the limit each time, gives the newest applications of the whole history, in any order of commits |
| ActivityTracker.FlushKeepsNewest | src/services/activity-tracker.js:116-135 | one flush keeps that, although the list it starts from has forgotten clients |
| ActivityTracker.HistoryIsMaximum | src/services/activity-tracker.js:15-25 | the merged history holds each client's true maximum |
| ActivityTracker.ActivityIsConserved | src/services/activity-tracker.js:82-164 | the newest timestamp recorded for a client is always pending, in flight or its lastUsedAt, and for a user's application pending, in flight, listed, or passed over by a full list no older, through overlapping flushes and failed writes, unless the resource is gone |
| ActivityTracker.StoredNeverDecreases | src/services/activity-tracker.js:116-156 | a client's lastUsedAt never goes back; what a user's list showed is later listed no older or passed over by a full list no older |
| ActivityTracker.QuietMeansStored | src/services/activity-tracker.js:143-156 | once nothing of a client waits, its lastUsedAt is the newest recorded |
| ActivityTracker.QuietMeansNewest | src/services/activity-tracker.js:82-135 | once nothing of a user waits, its cut list is the newest of everything ever recorded for the account, however the pods' flushes interleaved |
| ActivityTracker.NothingIsInvented | src/services/activity-tracker.js:116-156 | nothing stored is newer than what was recorded |
| ActivityTracker.RecordExactly | src/services/activity-tracker.js:37-46 | a sign-in is recorded at its pod under the client and, if it names an account, under that account's application, as the larger of its timestamp and what is there; nothing else changes |
| ActivityTracker.RecordedIsTheNewestSignIn | src/services/activity-tracker.js:37-46 | over any run, what counts as the newest recorded is at least every sign-in that concerns it, and is one of them |
| ActivityTracker.BeginFlushExactly | src/services/activity-tracker.js:84-87 | beginning a flush takes everything pending on its way |
| ActivityTracker.SettleExactly | src/services/activity-tracker.js:89-112 | an answered write leaves nothing of its target in flight or put back; a failed one puts everything back |
| ActivityTracker.UnstoredWrite | src/services/activity-tracker.js:133-134 | a write that was not stored, or whose resource is gone, changes no status |
| ActivityTracker.PutExactly | src/services/activity-tracker.js:121-125 | merging one application into a list updates or adds its own entry only, never to anything older |
| ActivityTracker.PutKeepsPlaces | src/services/activity-tracker.js:121-125 | a client keeps its place on the list, a new one comes last |
| ActivityTracker.SortIsStable | src/services/activity-tracker.js:126-127 | applications used at the same time stay in order |
| ActivityTracker.Tracker.RecordUse | src/services/activity-tracker.js:37-46 | recording is a maximum merge into both pending maps |
| ActivityTracker.Tracker.Flush | src/services/activity-tracker.js:82-114 | what a whole flush stores and what it puts back, among sign-ins that arrive while it runs |
| ActivityTracker.Tracker.FlushUsers | src/services/activity-tracker.js:89-100 | each user's list once, failed ones merged into what is pending by then |
| ActivityTracker.Tracker.FlushClients | src/services/activity-tracker.js:101-112 | each client's timestamp merged once, failed ones merged into what is pending by then |
| ScimDirectory.EveryDirectoryIsSound | src/services/scim-service.js:65-243 | through any requests a user carries the connection's group exactly when active and entitled, and is in groups that exist only, if and only if no group was deleted with members that were not listed |
| ScimDirectory.HandleIsSound | src/services/scim-service.js:65-243 | every single request, refused, interrupted or short of a LIST, keeps that, if and only if it is no such deletion |
| ScimDirectory.DeleteGroupIsSoundExactly | src/services/scim-service.js:238-243 | deleting a group keeps the directory sound if and only if the users were listed or the group has no members; otherwise nobody is written and the group is retired all the same |
| ScimDirectory.ReplaceMembersIsExact | src/services/scim-service.js:313-330 | an answered replacement makes the members exactly the desired set, touches no other group and has nothing to write a second time; without its LIST it writes nothing and succeeds exactly for an empty set |
| ScimDirectory.AddAndRemoveMembers | src/services/scim-service.js:332-344 | adding is union, removing is difference; without their LIST, adding is refused and removing removes nobody |
| ScimDirectory.UserRequestsKeepMembers | src/services/scim-service.js:65-144 | no request on a user changes any membership |
| ScimDirectory.UserRequestsTouchOneUser | src/services/scim-service.js:65-144 | a request on a user writes no group and no other user, and nothing when refused |
| ScimDirectory.GroupRequestsKeepProfiles | src/services/scim-service.js:146-243 | a request on a group changes nothing about any user but memberships and the grant |
| ScimDirectory.ReactivationRestores | src/services/scim-service.js:113-114 | deactivating takes the grant only, and reactivating gives back the same record |
| ScimDirectory.CreatedUser | src/services/scim-service.js:65-86 | POST of a user: when it is refused, and the record it stores |
| ScimDirectory.ReplacedUser | src/services/scim-service.js:88-102 | PUT of a user: the record it stores, memberships kept |
| ScimDirectory.PatchedUser | src/services/scim-service.js:104-140 | PATCH of a user by one operation: the attribute its path names changes as verb and value say, and which operations are refused and how |
| ScimDirectory.CreatedGroup | src/services/scim-service.js:146-193 | POST of a group: when it is refused, the record it stores, and everybody's memberships |
| ScimDirectory.ReplacedGroup | src/services/scim-service.js:195-204 | PUT of a group: record and memberships |
| ScimDirectory.PatchedGroup | src/services/scim-service.js:206-236 | PATCH of a live group by one operation, for each verb and path: add is union, replace the given set, remove nobody or all but one; a rename changes the name only; no other group is touched |
| ScimDirectory.GroupOpsInOrder | src/services/scim-service.js:206-236 | a PATCH of several operations is each in order until one is refused |
| ScimDirectory.MissingGroup | src/services/scim-service.js:57-63 | a PATCH of a group that is not live finds nothing |
| ScimDirectory.DeletedGroup | src/services/scim-service.js:238-243 | DELETE of a group: record and memberships |
| ScimDirectory.PlacedExactly | src/services/scim-service.js:319-328 | one turn of the member loop on the list of memberships |
| ScimDirectory.PatchComposes | src/services/scim-service.js:104-140 | a user PATCH is all or nothing, and a concatenated one is the two in order |
| ScimDirectory.OpsCompose | src/services/scim-service.js:107-135 | operations fold from left to right and stop at the first refused one |
| ScimDirectory.GrantIsNotConsulted | src/services/scim-service.js:288-297 | no PATCH operation reads or writes the derived grant |
| ScimDirectory.RecreatedGroup | src/services/scim-service.js:162-179 | deleting and creating a group again brings its record back with exactly the members asked for, also when the deletion listed nobody |
| ScimDirectory.CreationSparesLiveGroups | src/services/scim-service.js:156-193 | a live group survives another's creation if and only if its record is not under the new id or is already what would be written, which takes a failed LIST of groups |
| ScimDirectory.RenamedGroupIsOverwritten | src/services/scim-service.js:166-176 | the group that is overwritten |
| ScimDirectory.ScimService.PatchUserRecord | src/services/scim-service.js:104-140 | the loop over operations on a clone ends in the folded record or in nothing written |
| ScimDirectory.ScimService.PlaceUsers | src/services/scim-service.js:318-329 | the loop over users writes exactly those whose membership differs |
| ScimDirectory.ScimService.PlaceUser | src/services/scim-service.js:319-328 | one user's membership and grant after one turn of the loop |
| ScimDirectory.ScimService.ReplaceGroupMembers | src/services/scim-service.js:313-330 | unknown members are refused before anything is written; a failed LIST writes nobody |
| ScimDirectory.ScimService.DeleteGroupRecord | src/services/scim-service.js:238-243 | whoever is listed is taken out of the group, which is then kept as an inactive record |
| ScimWrites.OneWriterAtATime | src/services/scim-service.js:104-140 | requests that overlap on one user lose nothing, the record being the fold of the finished edits, if and only if at most one may be between its read and its write |
| ScimWrites.MembershipIsLost | src/services/scim-service.js:104-140 | for any user, group and acceptable PATCH, the run in which a member replacement that was answered is undone by the PATCH it overtook |
| ScimWrites.PatchRestoresMemberships | src/services/scim-service.js:106-138 | a user PATCH writes back the memberships it read, so it changes none if and only if they are still those |
| ScimWrites.PlacementRestoresProfile | src/services/scim-service.js:318-329 | a member replacement writes back the profile it read and every other membership it read |
| ScimWrites.EditsAreRequests | src/services/scim-service.js:104-140 | an edit nothing comes between is what the whole request does to the user |
| ScimWrites.StepsExactly | src/services/scim-service.js:313-330 | what a read and a finished request change |
| EmailOwnership.OwnerIsTheFirstClaimant | src/utils/user/identity-integrity.js:21-45 | the owner of an address is the one claimant before all others, and there is none only if nobody claims it |
| EmailOwnership.OwnerIsTheOldest | src/utils/user/identity-integrity.js:21-45 | the owner of an address is its oldest claimant by creation time, a missing one counting as latest and the smaller id deciding among equals |
| EmailOwnership.ClaimsExactly | src/models/account.js:331-340 | an account claims exactly its spec, company and own addresses, GitHub's and those of every upstream identity |
| EmailOwnership.ConflictsAreExact | src/utils/user/identity-integrity.js:41-49 | what is held against an account are exactly the addresses it claims that somebody else owns, each with its owner |
| EmailOwnership.EligibleMeansOwner | src/utils/user/identity-integrity.js:40-54 | an account is eligible if and only if it owns every address it claims |
| EmailOwnership.AnyListingAgrees | src/utils/user/identity-integrity.js:29-55 | owners and conflicts do not depend on the order of the listing |
| EmailOwnership.EligibleAccountsAreDisjoint | src/utils/user/identity-integrity.js:40-54 | two eligible accounts claim no address in common |
| EmailOwnership.LaterAccountsChangeNothing | src/utils/user/identity-integrity.js:21-55 | an account created later, or at the same time with a greater id, takes no address and costs nobody their eligibility |
| EmailOwnership.RemovalKeepsEligibility | src/utils/user/identity-integrity.js:29-55 | removing accounts makes no eligible one ineligible |
| EmailOwnership.AssessEmailOwnership | src/utils/user/identity-integrity.js:29-55 | the nested loops over Maps compute the specified owners and conflicts |
| EmailOwnership.GatherClaims | src/utils/user/identity-integrity.js:31-38 | the Map of claimants, each list in account order |
| EmailOwnership.AddConflicts | src/utils/user/identity-integrity.js:44-48 | every claimant but the owner gets one entry for the address |
| EmailOwnership.ConditionStore.ReconcileEmailUniqueness | src/services/kube-oidc-user-service.js:96-147 | a pass leaves every account it could write with its verdict and writes only where another was recorded |
| EmailOwnership.ConditionStore.RecordVerdicts | src/services/kube-oidc-user-service.js:101-143 | the loop over accounts, failures collected |
| EmailOwnership.PassRecordsExactly | src/services/kube-oidc-user-service.js:96-147 | what a pass leaves recorded: for whom it could write, eligibility and everything held against them; for all others what was there; and whom it writes to |
| EmailOwnership.ConditionStore.ReconcileTwice | src/services/kube-oidc-user-service.js:112 | a second pass writes nothing, and what is recorded is exactly eligibility |
| LoginResolution.ResolvesExactly | src/models/account.js:480-539 | a sign-in resolves to an existing account if and only if that account is eligible, owns every incoming address anybody owns, and alone carries the stable identity or, nobody carrying it, owns an incoming address and holds a proven one that is its spec or company address, that no identity lists, or that was proved to be its own |
| LoginResolution.EnrolsExactly | src/models/account.js:508-547 | nobody is matched if and only if nobody carries the identity and nobody claims an incoming address; then somebody new may be enrolled, if invited or unless enrolment is switched off |
| LoginResolution.RefusesExactly | src/models/account.js:523-533 | when a sign-in is refused for want of a proven address |
| LoginResolution.UnprovenLinksNothing | src/models/account.js:497-506 | an unverified upstream sign-in nobody carries links to nothing |
| LoginResolution.LinkableMeansProven | src/models/account.js:481-506 | the addresses allowed to link are a bare sign-in's own and those whose last word from the upstream is verified |
| LoginResolution.IncomingMeansIncoming | src/models/account.js:493-496 | removing repeated addresses loses none |
| LoginResolution.IdentityLookup | src/services/kube-oidc-user-service.js:60-94 | the lookup finds an account if and only if it alone carries the identity and is eligible |
| LoginResolution.CarriesExactly | src/services/kube-oidc-user-service.js:60-74 | which accounts carry a sign-in, by provider and subject or by GitHub id |
| LoginResolution.EmailLookup | src/services/kube-oidc-user-service.js:40-58 | the lookup finds an account if and only if it alone owns the incoming addresses and is eligible |
| LoginResolution.EnrolmentConflictsWithNobody | src/services/kube-oidc-user-service.js:149-179 | the account created after a sign-in that matched nobody is eligible, and no owner or eligibility changes |
| LoginResolution.SigningInAgainFindsTheAccount | src/models/account.js:480-571 | the same sign-in again finds that account if and only if it brought a stable identity or proved an address |
| LoginResolution.GetEmailVerifications | src/models/account.js:342-379 | the loops and the Map over evidence compute the specified list |
| LoginResolution.KeptMembers | src/models/account.js:375-378 | of every address, method and provider exactly the newest item is kept |
| LoginResolution.VerifiedIsGrounded | src/models/account.js:343-374 | what counts as verified stands today with a magic link, GitHub or an active identity, and for operator trust the provider is trusted now |
| LoginResolution.LinkableExactly | src/models/account.js:384-391 | a claimed address is linkable if and only if it is the spec or company address, no identity lists it, or the last item of a magic link, GitHub or an active identity, trusted today if by operator trust, proves it |
| LoginResolution.EvidenceExactly | src/models/account.js:342-379 | the evidence of an account is, of each kind, exactly the last item for the address and provider, with what it says |
| LoginResolution.LessTrustLinksLess | src/models/account.js:384-391 | withdrawing trust from a provider makes nothing linkable |
| EmailReconcile.OnePassAtATime | src/operators/kube-oidc-user-operator.js:60-68 | at most one pass is in flight in every run |
| EmailReconcile.NoLostWakeUp | src/operators/kube-oidc-user-operator.js:55-76 | a request's promise settles only after a whole pass that began after the request, also for requests between the loop's last check and its callback |
| EmailReconcile.EveryRequestIsServed | src/operators/kube-oidc-user-operator.js:55-76 | the steps left are bounded, and when none is left every request is served |
| EmailReconcile.StepIsProgress | src/operators/kube-oidc-user-operator.js:61-74 | every step but a new request brings the end nearer |
| EmailReconcile.StuckMeansSettled | src/operators/kube-oidc-user-operator.js:69-74 | no promise is left waiting when nothing can happen |
| EmailReconcile.KubeOIDCUserOperator.ScheduleEmailReconcile | src/operators/kube-oidc-user-operator.js:55-76 | joins the running promise or starts a loop |
| EmailReconcile.KubeOIDCUserOperator.RequestReconcile | src/operators/kube-oidc-user-operator.js:39-53 | what the watch callbacks end with |
| EmailReconcile.KubeOIDCUserOperator.AfterPass | src/operators/kube-oidc-user-operator.js:61-68 | the end of a pass and the loop's check |
| EmailReconcile.KubeOIDCUserOperator.FinallyCallback | src/operators/kube-oidc-user-operator.js:69-74 | the callback clears the promise and starts again if asked |
| EventHooks.OverlapIsHarmless | src/operators/kube-oidc-user-event-hook-operator.js:44-95 | however handlers of different users overlap, each user's events are handled as if alone, if its own do not overlap |
| EventHooks.OneHandlerAtATime | src/operators/kube-oidc-user-event-hook-operator.js:75-95 | every run dispatches a user's events as if each were handled alone if and only if at most one of its handlers may run at a time |
| EventHooks.FinishExactly | src/operators/kube-oidc-user-event-hook-operator.js:75-95 | a finishing handler goes by what it read: the generation it read does nothing, any other is stored and dispatched |
| EventHooks.ReceiveExactly | src/operators/kube-oidc-user-event-hook-operator.js:44-46 | an event's handler reads the store at once |
| EventHooks.HandoversChangeNothing | src/operators/kube-oidc-user-event-hook-operator.js:36-43 | runs that differ by replays of the remembered generation dispatch the same |
| EventHooks.ReplaysChangeNothing | src/operators/kube-oidc-user-event-hook-operator.js:75-83 | any number of such replays, anywhere in one user's stream, changes nothing |
| EventHooks.DispatchedAreTheChanges | src/operators/kube-oidc-user-event-hook-operator.js:75-95 | what is dispatched are the generation changes with consecutive repeats removed |
| EventHooks.DispatchedIsOneLife | src/operators/kube-oidc-user-event-hook-operator.js:75-95 | shaped Added? Modified* Deleted?, if nothing is reported after the deletion |
| EventHooks.AddedStartsALife | src/operators/kube-oidc-user-event-hook-operator.js:75-83 | in every stream Added comes first, for a user not remembered, or right after Deleted |
| EventHooks.OverlappingHandlersOfOneUser | src/operators/kube-oidc-user-event-hook-operator.js:75-90 | for any user, store and new generation, the run in which one change is dispatched twice |
| EventHooks.QuietReplay | src/operators/kube-oidc-user-event-hook-operator.js:75-83 | a replayed listing dispatches nothing if and only if every listed user is remembered as listed |
| EventHooks.KubeOidcUserEventHookOperator.SeedOnFirstRun | src/operators/kube-oidc-user-event-hook-operator.js:56-73 | seeding remembers a whole listing and dispatches nothing; a failed listing leaves the store unmarked, a failed write leaves part of it |
| EventHooks.KubeOidcUserEventHookOperator.Add | src/operators/kube-oidc-user-event-hook-operator.js:75-83 | store and dispatch after an ADDED |
| EventHooks.KubeOidcUserEventHookOperator.Modify | src/operators/kube-oidc-user-event-hook-operator.js:85-90 | store and dispatch after a MODIFIED |
| EventHooks.KubeOidcUserEventHookOperator.Delete | src/operators/kube-oidc-user-event-hook-operator.js:92-95 | store and dispatch after a DELETED |
| EventHooks.KubeOidcUserEventHookOperator.ReplayListing | src/operators/kube-oidc-user-event-hook-operator.js:17-28 | the ADDED events a watch begins with dispatch exactly the gap between store and listing |
| EventHooks.KubeOidcUserEventHookOperator.FirstRun | src/operators/kube-oidc-user-event-hook-operator.js:52-73 | seeding and then watching the same users dispatches nothing |
| EventHooks.KubeOidcUserEventHookOperator.FirstRunAgain | src/operators/kube-oidc-user-event-hook-operator.js:56-73 | a seeding that failed midway is made good by the next |
| EventHooks.SeedingResumes | src/operators/kube-oidc-user-event-hook-operator.js:68-70 | seeding part of a listing and then all of it is seeding all of it |
| EventHooks.ReseedingIsInvisible | src/operators/kube-oidc-user-event-hook-operator.js:52-73 | seeding anew and then replaying dispatches what the replay alone would have if and only if the generation found had been dispatched |
| EventHooks.WipeIsInvisible | src/operators/kube-oidc-user-event-hook-operator.js:75-95 | on a wiped store a user's reports are dispatched as they would have been if and only if the first is a deletion or a MODIFIED of a new generation |
| EventHooks.KubeOidcUserEventHookOperator.FirstRunWithoutListing | src/operators/kube-oidc-user-event-hook-operator.js:62-67 | after a failed first listing a new store dispatches Added for everybody |

## Left out

- LeaderElection: a write still on its way when its pod crashes is lost with it;
  external edits of the Lease and the six-digit time format are not modelled.
- `onStartedLeading` and `onStoppedLeading` run to their end at once here.
- RedisGrants: time is in whole seconds; `consume`, session sets and the uid and
  user-code keys are not modelled, and an upsert is one step although it reads a
  list's TTL first.
- StatusMutation: a resource that was deleted is not created again.
- ClientSecret: one confidential client; public clients, refresh Jobs and the
  rest of a Secret's contents are left out, and nobody edits the Secret by hand.
- ClientOwnership: conditions, Events and the Traefik resource itself; a
  resource's status is reduced to its instance; whether an event's mappings are
  valid is a free choice of every event.
- ClientSweep: a record is what it refers to, and every replayed client is a
  valid confidential one that is already owned; LISTs are atomic per kind.
- WipeRecovery: the marker check and the marking are one step; a failed read of the
  marker is like a write of it that failed and did not land; the operators of one
  generation count as up together; a stop asked for before the first start() returned,
  when there is no stop function yet (`src/app.js:116-125`), is not modelled.
- ActivityTracker: a status write is one step, as StatusMutation allows; a pod
  that crashes loses what it had pending; the length of the list is fixed during
  a run; a resource that is gone is not created again; the inactivity condition is
  left out; the loops over Maps take their entries in any order.
- ScimWrites: one user at a time; the fresh read an update diffs against and its patch
  are one step that stores the whole copy.
- ScimDirectory: requests do not overlap, which ScimWrites looks at; timestamps, paging and response
  bodies, the grammar of PATCH paths and whitespace trimming are left out; user
  and group ids are taken to be disjoint, as their prefixes are; failed LISTs and
  writes that fail inside a member replacement are modelled, while a failed read
  of one record, which ends a request as not found, is not; an `add` of something other than
  a list of members, which throws in the source, adds nobody here.
- EmailOwnership: addresses are canonical, `localeCompare` is the order of
  characters, creation times are in the range of a Date or missing; a failed LIST of accounts,
  which throws before anything is decided, is left out; transition times, Events
  and metrics are left out, and distinct conflicts are taken to read
  differently in a condition's message.
- LoginResolution: `observedAt`, where a new username comes from, prompting for one, Slack
  and terms of service are left out; enrolment is the creation itself.
- Reconcile fingerprints (`src/models/client-activity-state.js`): whether a replayed
  resource is current is a free choice of every run, which covers any fingerprint;
  Ready and activity conditions are left out.
- EmailReconcile: what a pass does is EmailOwnership; a pass that throws counts
  as complete, as the loop treats it.
- EventHooks: matching hooks, creating Jobs and their status; storing a
  generation and dispatching are one step, so a process that dies in between
  and loses a dispatch is not modelled.
- HTTP routes, the OIDC provider, sessions, watch transport and reconnects,
  cryptography, mail, Slack, GitHub, metrics, the frontend and environment
  parsing hold no state these properties rest on.
