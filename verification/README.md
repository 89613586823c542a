# GroupBridge, modelled and proved

GroupBridge copies group membership from Keycloak to GitLab. It reads the source
groups, plans jobs against a persistent ownership ledger, and adds, raises or
removes direct GitLab memberships. Webhook events only decide when it looks.

This project models that logic in Dafny and proves what it promises: what every
single call keeps, what holds over whole runs in which any call may fail, the process
may restart and the power may fail, and where two statements of the same rule agree. Check it with
`dafny verify dfyconfig.toml`.

## How it is built

Code that updates state in place is a class or a method with loops here too. Each
such method is proved equal to a function of the old state, or to a property that
determines the new state; the theorems about runs are lemmas about those functions. What
a function decides (who may be removed, which jobs a plan holds, what a hint asks for,
what a path becomes) is stated once more in words of its own and proved equivalent.

| files | what they hold |
|---|---|
| `Text`, `Wrappers`, `Sizes` | string operations of Go, the order of NUL-joined keys, sizes of sets |
| `Ledger`, `Store` | the ledger as a value; the store as a class over a disk that can stop at any system call |
| `Sync`, `GitLab` | `SyncGroup` as a function of world and faults; the same as a class that works step by step |
| `SyncSafety`, `SyncTrace`, `SyncBinding`, `SyncGate`, `SyncClaims`, `SyncConvergence`, `MemberRules` | frame, where a pass may leave its mark, bindings, removal gate, which members the ledger claims, convergence, and the rules for a single member written out |
| `IdentityMatch` | which GitLab user a source user resolves to |
| `Paths`, `PathShapes` | path mapping in validation and at run time; what a mapped path is, character by character |
| `Planner`, `PlanContents`, `PlanAccounting`, `PlanAgain`, `Collisions`, `Migration`, `MigrationSuccess` | plans, what they hold, what they account for, how the next one looks and when they report a collision; canonical migration and when it succeeds |
| `PlanRuns`, `PowerFailure`, `Retirement`, `TurnSafety`, `Sites`, `TurnConvergence`, `TurnExample`, `Reconciler` | runs of whole turns: ownership of targets, giving up mappings, safety of members, jobs side by side and convergence; and the controller as a class |
| `Routes`, `Queue`, `QueueFlags`, `EventQueue`, `EventBatch` | the private routing index, the event queue under all interleavings and what its batches are made of, and batch processing |
| `Traversal` | reading the source depth first over paged listings |
| `Payload`, `ResourcePath` | the JSON printer of the Keycloak extension with a decoder by RFC 8259, and the identifiers it reads off resource paths |
| `Webhook` | the receiver: checks, classification, replay window |

### What the environment may do

Every call to GitLab and every save draws one fault from an arbitrary sequence:
it works, it stops before taking effect, it takes effect and still reports an error,
or (for adding and changing members) GitLab acknowledges a write it has not made
active. Answers of GitLab and Keycloak, and every order in which Go walks a map, are
arbitrary functions of the number of calls made so far. Only where a theorem needs a
quiet environment (convergence) does it say so in its `requires`.

A save is a sequence of system calls on a small file system with a visible and a
settled directory entry. A stop at any of them may lose whatever is not synced. Every
state the disk passes through is recorded, and each one is proved to read back as a
ledger a crash could already have left before, or as the new one. The runs keep three
ledgers apart: the one in memory, the visible file, and what is settled of it. A restart
loads the second, a power failure the third.

Ledger keys are tuples here and NUL-joined text in the program.
`Text.KeyTextFaithful` proves that for identifiers without NUL the text sorts like the
tuple and is injective. The keyed hash of the event path is any function that
separates domains and identifiers under one secret.

## What came out

* Two fault-free authoritative passes converge from any ledger and any target state,
  and the third changes nothing. So do two full turns of the controller, all jobs of a
  plan and all its tombstones together (`TurnConvergence.TwoTurnsConverge`). A pass that reports success has given every resolved
  user the access asked for, even if GitLab acknowledged writes it did not make active:
  the final read in `SyncGroup` catches those.
* `ResetAbsent` reports success without a save when memory has no entry
  (internal/state/store.go:271-274), although the file might still hold one after a
  save that took effect and reported an error. Over whole runs this is harmless only
  because every pass first saves its binding and stops at the first error, so memory
  and file agree whenever a reset is reached. `SyncGate.GateOverRuns` rests on that.
* Path validation and run-time mapping agree for GitLab on every accepted path. For
  Vault they do not: validation does not limit the segments of the configured prefix to
  63 characters nor the whole path to 240. `Paths.VaultPrefixTooLong` gives an input,
  and `Paths.ValidationPredictsVault` says that the mapping fails exactly on those two.
* The webhook calls itself replay-protected. A request whose timestamp is ahead of the
  receiver's clock can be accepted again once its entry has expired
  (`Webhook.ReplayExample`). `Webhook.ReplayableExactly` says that, with one reading of
  the clock per request, this is possible if and only if the timestamp was ahead;
  `Webhook.NoReplay` bounds it when the clock is read three times, as the code does.
* A targeted plan walks the mappings once, in key order
  (internal/reconcile/reconciler.go:282-297). A source whose new path is held by another
  source that sorts before it is refused, although its own established target is the one
  the plan ends up with (`Collisions.RenamedAndRefused`; `Collisions.RenamedFullPlan`
  shows the full plan of the same ledger succeed). `Collisions.TargetedCollision` says
  exactly when a collision is reported. Nothing changes then, and since a failed targeted
  run is only logged (internal/reconcile/reconciler.go:132-135), the change waits for the
  next full run.
* A mapping belongs to a rule by the prefix `target@` of its provider. After a target's
  address changed, the tombstone of a mapping recorded under the old ownership key is
  worked off under the new one, where it finds nobody managed: the mapping is given up
  and its members stay (`Retirement.MovedTargetKeepsMember`). `Retirement.RetirementExact`
  says that this is the only way: giving a mapping up is safe if and only if it was recorded
  under the present key, or there was nobody to remove.
* A power failure can change the target of a binding, in one way only: the last restart
  had loaded a file that was visible but not settled for that source, and no save has
  reached its directory sync since (`PlanRuns.TargetChangesExactly`, an if and only if).
  `PowerFailure.PowerFailureRetargets` runs the controller into it.
* A member whose addition took effect, but whose pass ended before his mark was saved, is
  never claimed by a later pass: it finds him content, or refuses to change him. Under
  managed-only prune he stays when his source membership ends. `SyncClaims.UnclaimedExactly`
  says exactly which members are unclaimed after a run, and `SyncClaims.PassClaims` which
  one a failed pass leaves so: the addition that its report does not count.

## Model

| member | source | states |
|---|---|---|
| `SyncConvergence.TwoPassesConverge` | internal/provider/gitlab/client.go:103-270 | From any well-formed books without negative absence counts and any target state, under owned authoritative prune, two fault-free passes leave as direct members exactly the desired users and the untouched exempt ones, each desired one at or above the level (exactly at it if enforced and below Owner); a third pass changes no group and no member in GitLab and reports convergence. |
| `SyncConvergence.SuccessMeansApplied` | internal/provider/gitlab/client.go:166-207 | A pass without error has really given every resolved user the requested access, whatever faults happened, including writes acknowledged but not made active. |
| `SyncConvergence.PassFree` | internal/provider/gitlab/client.go:209-269 | One fault-free pass makes every desired user content, touches no exempt member, removes every candidate that was due and leaves the others due for the next pass. |
| `SyncConvergence.ContentLevel` | internal/provider/gitlab/client.go:183-207 | A member needing no change has at least the requested level, and exactly it when enforced below Owner. |
| `SyncSafety.ManagedOnlyFrame` | internal/provider/gitlab/client.go:162-267 | Over any run of managed-only passes, failing at any call, with restarts and power failures anywhere, every membership that no ledger claimed at the start is still there with level and role unchanged. |
| `SyncSafety.PassUnclaimed` | internal/provider/gitlab/client.go:141-269 | One managed-only pass, stopped anywhere, neither changes nor claims a member the ledger did not know. |
| `SyncTrace.PassLocal` | internal/provider/gitlab/client.go:103-270 | Stopped anywhere, a pass removes nobody without a removal in the history, and leaves rosters, claims and absences of every other group as they were. |
| `SyncTrace.SyncTraced` | internal/provider/gitlab/client.go:103-326 | The whole operation, creation of groups included, loses no member without a removal in the history. |
| `SyncClaims.AddNewClaims` | internal/provider/gitlab/client.go:168-180 | One addition leaves a member unclaimed exactly if it took effect and an error was reported for it, for the read behind it, or for the save of its mark. |
| `SyncClaims.PassClaims` | internal/provider/gitlab/client.go:141-269 | A managed-only pass leaves a member unclaimed exactly if he was so before, or he was unknown and is the last addition of a pass that made one more than it reports. |
| `SyncClaims.UnmarkedStays` | internal/provider/gitlab/client.go:181-207 | A managed-only pass neither claims, changes nor removes a member it finds unclaimed. |
| `SyncClaims.UnclaimedExactly` | internal/provider/gitlab/client.go:162-269 | Over any run of managed-only passes with faults, restarts and power failures anywhere, a member is unclaimed at the end if and only if some action left him so and no restart since has loaded a file that claims him. |
| `SyncGate.PassGate` | internal/provider/gitlab/client.go:209-267 | Whoever is in a roster before a pass and not after it was removed by it, and every removal of a pass is justified: undesired, not the token's own user, below Owner, no custom role, not protected, managed or under owned authoritative prune, and observed absent twice since the last acknowledged reset unless removal is immediate; at most `MaxRemovals` removals, none while a user is unresolved. |
| `SyncGate.GateOverRuns` | internal/provider/gitlab/client.go:209-267 | The same for every pass of any run from a ledger without absences, with faults, restarts and power failures anywhere, so observations never survive a reset that was acknowledged. |
| `SyncGate.GoneThroughGate` | internal/provider/gitlab/client.go:209-267 | Seen from the rosters alone: a member there at the start of such a run and not at its end was removed by some pass of it, and that removal was justified. |
| `SyncGate.ConvergedPassIsClean` | internal/provider/gitlab/client.go:213-268 | When a pass reports convergence, no member remains in the target that the prune mode would still remove. |
| `SyncGate.RunTallied` | internal/state/store.go:248-282 | Over any run, neither memory nor the file ever claims more absence observations than were written since the last acknowledged reset. |
| `MemberRules.PassMembers` | internal/provider/gitlab/client.go:209-267 | Of the members a pass does not want, whatever fails: whoever is the token's own user, at level 50 or above, in a custom role, protected by name up to case, outside the prune mode (`none` removes nobody, `managed-only` only whom the ledger claims) or not yet observed absent stays with level and role unchanged, and so does everybody while a user is unresolved; in a successful pass everybody else is gone, unclaimed and without absences. |
| `MemberRules.SyncSpares` | internal/provider/gitlab/client.go:103-270 | The whole operation keeps such a member as he was, wherever it works and whatever fails. |
| `MemberRules.SyncRemovesAll` | internal/provider/gitlab/client.go:209-267 | And, when it succeeds with every user resolved, it removes everybody whom it does not want and none of these reasons keeps. |
| `MemberRules.RunSpares` | internal/provider/gitlab/client.go:209-267 | Over any run with restarts and power failures in which every pass at his group finds such a reason, the member stays as he was. |
| `MemberRules.RemovedMeans` | internal/provider/gitlab/client.go:209-267 | Whoever the run and turn theorems say was removed by an operation was there, unwanted, not shielded by any of the four reasons, and within the prune mode. |
| `MemberRules.PassWanted` | internal/provider/gitlab/client.go:166-207 | A wanted user's membership becomes, whatever fails, nothing but a new one at the level asked for, the old one, or the old one at that level if it was too low or is enforced below Owner and is no custom role; if the pass succeeds it has changed exactly where that holds, nobody's custom role conflicts, and under managed-only prune whoever was changed was claimed. |
| `MemberRules.LevelsInOrder` | internal/provider/gitlab/client.go:24-31 | Guest, planner, reporter, developer and maintainer are 10, 15, 20, 30 and 40, in order and below Owner at 50. |
| `SyncBinding.EnsureGroupExact` | internal/provider/gitlab/client.go:272-326 | Whatever fails on the way, a target is returned only for the path asked for, counts as created exactly if it did not exist, and no existing group or roster is replaced. |
| `SyncBinding.BindingKeeps` | internal/provider/gitlab/client.go:119-140 | A binding is written once: a pass adds at most the request's own key and never changes the target of any existing binding. |
| `SyncBinding.PassGroups` | internal/provider/gitlab/client.go:119-140 | In memory a pass leaves either the old bindings or those with the request's binding; the file has one of the same two; success means the new ones are in both. |
| `SyncBinding.BindingExactly` | internal/provider/gitlab/client.go:109-140 | Field by field: a first binding is owned exactly if the group was created or is adopted, an old one if it was or is adopted now; it is recorded if and only if the target is the bound one and, under authoritative prune, owned. |
| `SyncBinding.EnsureGroupInside` | internal/provider/gitlab/client.go:272-326 | No group is returned or created outside the configured parent, nor created below a parent GitLab does not have or without leave to create. |
| `IdentityMatch.FindUserExact` | internal/provider/gitlab/client.go:378-442 | A user is found if and only if some strategy decides for it: the only exact match in the answer of the first strategy that matched anyone, every earlier one skipped or answered without a match, and `oidc-username` never combined. |
| `IdentityMatch.MatchesExactly` | internal/provider/gitlab/client.go:413-423 | A candidate matches a strategy exactly if it has the very identity asked for at the configured provider, or the user name or address asked for up to case. |
| `IdentityMatch.FoundShares` | internal/provider/gitlab/client.go:378-442 | Nobody is taken for a source user without sharing the non-empty value that one of the strategies asked for. |
| `IdentityMatch.ResolvedMeans` | internal/provider/gitlab/client.go:148-161 | Without an error the wanted users are exactly the active users found for the members, and every member without one is counted. |
| `GitLab.Provider.SyncGroup` | internal/provider/gitlab/client.go:103-270 | The step-by-step operation on server and store ends in exactly the world, counters and error of the specification that the theorems are about. |
| `GitLab.Provider.EnsureGroup` | internal/provider/gitlab/client.go:272-326 | The descending loop that creates missing groups refines its recursive specification, faults included. |
| `GitLab.Provider.FindUser` | internal/provider/gitlab/client.go:378-442 | The loop over strategies and answers computes the lookup specified. |
| `GitLab.Provider.EnsureUser` | internal/provider/gitlab/client.go:166-207 | Adding or re-levelling one user, with verification reads, refines its specification. |
| `GitLab.Provider.GateUser` | internal/provider/gitlab/client.go:209-245 | One member passed through exemption, prune mode and observation refines its specification; `MemberRules.PassMembers` says what that decides. |
| `GitLab.Provider.RemoveAll` | internal/provider/gitlab/client.go:246-267 | The removal loop stops at its first error and leaves exactly the specified world. |
| `Store.Store.SaveLocked` | internal/state/store.go:284-351 | Every state the disk passes through reads back as a ledger a crash could already have left, or as the new one; success means that even after a crash the file reads as memory; failure before the rename leaves the file as it was. |
| `Store.Store.MarkManaged` | internal/state/store.go:118-134 | Atomic in memory and crash-atomic on disk: a reported error leaves memory as before. |
| `Store.Store.UnmarkManaged` | internal/state/store.go:136-149 | The same for forgetting a membership. |
| `Store.Store.PutGroup` | internal/state/store.go:171-186 | The same for a binding, which replaces only its own key. |
| `Store.Store.DeleteGroup` | internal/state/store.go:188-205 | The same for dropping a binding; an absent key succeeds without a save. |
| `Store.Store.MoveGroup` | internal/state/store.go:207-246 | The same for rekeying: nothing to move or a conflicting target is an error without any effect, an equal target merges. |
| `Store.Store.ConfirmAbsent` | internal/state/store.go:248-266 | The same for an observation; confirmed only when saved and at least the second. |
| `Store.Store.ResetAbsent` | internal/state/store.go:268-282 | The same for a reset; an absent entry succeeds without a save. |
| `Store.ImageUnique` | internal/state/store.go:284-316 | The image written is a function of the maps alone, whatever order they are walked in. |
| `Store.LoadImage` | internal/state/store.go:55-95 | Reading an image back gives exactly the ledger it was written from. |
| `Store.SortLists` | internal/state/store.go:284-316 | Sorting gives a strictly sorted listing of the same entries. |
| `Store.MixtureCrashes` | internal/state/store.go:317-351 | Any mix of the old directory entries and the new synced file reads back as what a crash could already leave, or as the new ledger. |
| `Store.SteadyCrashes` | internal/state/store.go:317-351 | Between saves a crash finds the visible ledger or the settled one, and can find either. |
| `Store.Store.BuildImage` | internal/state/store.go:284-316 | The loops over the three maps produce the one sorted image of memory. |
| `Text.KeyTextFaithful` | internal/state/store.go:353-359 | For identifiers without NUL, NUL-joined keys sort exactly like the tuples they stand for and are injective. |
| `PlanAccounting.FullPlanAccounts` | internal/reconcile/reconciler.go:252-399 | If a full plan succeeds, its jobs have pairwise distinct targets and every mapping of a configured, available GitLab rule is exactly one of: claimed by a live job at its own target, held by the exact allowlist, given a member-less tombstone. |
| `PlanAccounting.LiveJobTarget` | internal/reconcile/reconciler.go:282-308 | A live job goes to the target its source is bound to, renames included; an unbound source of a targeted plan never takes a target of the rule already bound. |
| `PlanAccounting.HealthGate` | internal/reconcile/reconciler.go:395-420 | Jobs are applied if and only if the plan has no error, the provider of every job is healthy, and in a full run every configured provider is; otherwise nothing changes. |
| `Planner.AppliedOneByOne` | internal/reconcile/reconciler.go:421-474 | Every job is applied, in order, whatever became of the others, and the run succeeds if and only if all did. |
| `PlanContents.PlanExactly` | internal/reconcile/reconciler.go:252-399 | A plan without an error is, job by job, one live job for each pair of a source group and a rule it falls under, then in a full plan one tombstone for each pair of a left-over mapping and its rule, and nothing else; each job's key, target, group, rule settings, creation and immediacy are told from the group, the rule and the mapping. |
| `PlanContents.PairsHold` | internal/reconcile/reconciler.go:258-265 | A group falls under a rule exactly if its path lies strictly below the prefix, is listed if the rule has a list, and the rule is no Vault rule in a membership run. |
| `PlanContents.PairsOnce` | internal/reconcile/reconciler.go:257-341 | With distinct groups and rules each such pair comes once, so it has exactly one live job. |
| `PlanContents.BurialsHold` | internal/reconcile/reconciler.go:342-371 | A mapping is left over for a rule exactly if it is the rule's at its target, the rule is no Vault rule, its provider is configured, no list of it has the mapping's path, and no live job has its source. |
| `Planner.JobsSound` | internal/reconcile/reconciler.go:252-399 | No plan holds a group job whose provider is not an available GitLab provider. |
| `PlanRuns.TargetOwnershipInjective` | internal/reconcile/reconciler.go:282-371 | From an empty ledger, through any mix of full, targeted, restart and power failure turns with any faults, distinct sources of a rule without declared paths are bound to distinct targets after every turn, and a turn changes the target of a binding it keeps exactly in the one case of the next row. |
| `PlanRuns.TargetChangesExactly` | internal/reconcile/reconciler.go:282-371 | From any sound books, a turn changes the target of a binding it keeps if and only if it is a power failure, the last restart before it loaded a file not settled for that source, and no save has reached its directory sync since. |
| `PowerFailure.PowerFailureRetargets` | internal/state/store.go:317-351 | That case is a run of the controller: a full turn whose save stops after the directory sync, one after a rename whose save stops before it, a restart and a power failure bind one source to two targets in turn. |
| `PlanRuns.SnapshotIsGood` | internal/source/keycloak/client.go:68-82 | What reading the source returns meets what the run theorems ask of a full turn: non-empty, pairwise distinct identifiers. |
| `PlanRuns.TurnPreserves` | internal/reconcile/reconciler.go:178-243 | One turn of any kind keeps memory, file and what is settled of it injective and well keyed; every turn but a power failure keeps every surviving target, and a full or targeted one leaves memory and what is settled as they were or, after a directory sync, in agreement. |
| `PlanRuns.FullPlanFits` | internal/reconcile/reconciler.go:342-371 | Every job of a full plan, tombstones included, has the same source as a binding or another job if and only if it has the same target. |
| `PlanRuns.TargetedPlanFits` | internal/reconcile/reconciler.go:282-308 | The same for the jobs of a targeted plan. |
| `Retirement.RetiredWhen` | internal/reconcile/reconciler.go:436-446 | A tombstone's mapping is given up exactly when its pass ended without error and converged and the deletion was saved. |
| `Retirement.RetirementIsSafe` | internal/reconcile/reconciler.go:342-446 | If the mapping was recorded under the provider's present ownership key, the group cleaned is the one it names, by id and path, and nobody whom the prune mode would remove is left there when the mapping is given up. |
| `Retirement.RetirementExact` | internal/reconcile/reconciler.go:342-446 | When a mapping is given up, its own group is clean if and only if it was recorded under the present key or was clean before. |
| `Retirement.OtherKeyRetires` | internal/reconcile/reconciler.go:342-446 | The failing family: an empty group under the new key makes the tombstone of a mapping under the old key converge; the mapping goes, and the roster under the old key is as it was. |
| `Retirement.MovedTargetKeepsMember` | internal/reconcile/reconciler.go:342-446 | One concrete such input, from full plan to the managed member left behind. |
| `TurnSafety.GoneThroughTurns` | internal/reconcile/reconciler.go:178-243 | Over any turns of the controller, migrations and retirements included, a member there at the start and gone at the end was removed by the pass of some job of some turn, through the whole gate and within its limit; only a tombstone of a rule with declared paths removes without two observed absences. |
| `TurnSafety.ManagedOnlyTurns` | internal/reconcile/reconciler.go:178-243 | Over any turns under managed-only rules, every membership of a group no ledger knew at the start is there unchanged. |
| `TurnConvergence.TwoTurnsConverge` | internal/reconcile/reconciler.go:178-474 | If a full plan over migrated bindings succeeds, its targets exist and are pruned authoritatively by an owned binding within the limit, two fault-free full turns leave at every target, live or tombstone, exactly the desired and the untouched exempt members, bind every live source and give up every mapping whose source is gone; a third turn changes no group and no member. |
| `TurnExample.ExampleConverges` | internal/reconcile/reconciler.go:342-446 | A small world that meets all those conditions: one member is left in the group of a mapping whose source is gone, and after two turns member and mapping are gone. |
| `PlanAgain.PlansAgain` | internal/reconcile/reconciler.go:252-371 | Once a full plan's live jobs are bound, and whichever of its tombstones were given up, the next full plan succeeds with the same live jobs and exactly the tombstones that are left. |
| `Sites.JobsStepped` | internal/reconcile/reconciler.go:400-474 | A fault-free turn does at the site of each of its jobs what the job's pass alone would do there. |
| `Collisions.AimCollides` | internal/reconcile/reconciler.go:282-297 | A targeted walk reports a collision exactly if another source's mapping is at the target aimed at when the walk comes to it. |
| `Collisions.TargetedCollision` | internal/reconcile/reconciler.go:282-297 | With distinct targets in the ledger, that is so exactly if another source holds the freshly mapped path and sorts before the source, or the source is unbound. |
| `Collisions.RenamedSourceRefused` | internal/reconcile/reconciler.go:252-297 | Every targeted plan of such a source fails as a whole, although the source is bound to a target of its own. |
| `Collisions.RenamedAndRefused` | internal/reconcile/reconciler.go:282-297 | A concrete renamed source: its only job goes to its own target, and the plan is refused for a collision. |
| `Collisions.RenamedFullPlan` | internal/reconcile/reconciler.go:252-371 | The full plan of the same ledger and the same names has no error. |
| `Collisions.BothListed` | internal/state/store.go:151-169 | The ledger of that example is well keyed, has distinct targets, and is walked in this order. |
| `Migration.MigrationConserves` | internal/reconcile/reconciler.go:476-503 | However a migration ends, every binding's grant, every membership and every absence record survives in memory and in what is written; on success no present declared path is left under a legacy key. |
| `MigrationSuccess.MigrationSucceedsExactly` | internal/reconcile/reconciler.go:476-503 | Without faults, for distinct source paths and rule names and no legacy key that is itself a present path: a migration succeeds if and only if all mappings of one provider, rule and present declared path share one target. |
| `MigrationSuccess.MergedIntoOne` | internal/reconcile/reconciler.go:476-503 | After a successful migration all mappings of one provider, rule and present declared path have become one, keyed by the path. |
| `MigrationSuccess.CrossedKeyFails` | internal/reconcile/reconciler.go:476-503 | Without that condition on keys it fails: a mapping for another path that is keyed by this one stands in the way of a migration in which no two mappings disagree. |
| `Migration.SecondMigrationIsIdle` | internal/reconcile/reconciler.go:476-503 | After a successful migration a second one changes nothing and makes no call. |
| `Migration.MigrationLeavesOtherRules` | internal/reconcile/reconciler.go:476-503 | Bindings of rules without declared paths are left exactly as they are. |
| `Migration.MoveKeeps` | internal/state/store.go:207-246 | One rekeying conserves every grant and settles its legacy key; keys settled before stay so, and bindings of other rules are as they were. |
| `Migration.MoveExactly` | internal/state/store.go:207-246 | Field by field: it succeeds if and only if the old key is bound and the new one is free or bound to the same target; the old key goes, the new one has that target and ownership under the given source, and nothing else changes. |
| `Migration.MigrateCanonicalMappings` | internal/reconcile/reconciler.go:476-503 | The nested loops over rules, groups and mappings end as the specified migration does, stopping at the first error. |
| `Reconciler.Reconciler.BuildPlan` | internal/reconcile/reconciler.go:252-399 | The loops that fill jobs, owners and present sources build exactly the specified plan; `PlanContents.PlanExactly` says what is in it. |
| `Reconciler.Reconciler.ReconcileGroups` | internal/reconcile/reconciler.go:245-474 | Planning, health checks and application together have exactly the specified outcome; jobs are applied if and only if the plan has no error and every provider the run depends on is healthy, and otherwise GitLab, the ledger and its file are as they were. |
| `Reconciler.Reconciler.RunOnce` | internal/reconcile/reconciler.go:192-200 | Once the source is read and the index replaced, migration followed by reconciliation is the turn the run theorems speak about. |
| `Paths.ValidationPredictsGitLab` | internal/config/config.go:366-399 | Every path validation accepts is mapped at run time to the identical GitLab target. |
| `Paths.ValidationPredictsVault` | internal/config/config.go:366-416 | For Vault the run-time mapping gives the validated target exactly if every prefix segment is at most 63 characters and the whole at most 240, and fails otherwise. |
| `Paths.VaultPrefixTooLong` | internal/config/config.go:401-416 | A Vault prefix segment of 64 letters, in a rule with the source prefix `/`, is accepted by validation and refused at run time. |
| `Paths.AcceptedPathsNeverCollide` | internal/config/config.go:277-293 | No two accepted paths of one rule are mapped to the same GitLab target at run time. |
| `Paths.MappedBelowParent` | internal/reconcile/reconciler.go:555-568 | A mapped path lies strictly below a non-empty parent. |
| `Paths.MappedTrimmed` | internal/reconcile/reconciler.go:555-568 | A mapped path is non-empty and already trimmed. |
| `Paths.SlugIdempotent` | internal/reconcile/reconciler.go:555-568 | Slugging a slug changes nothing. |
| `Paths.MapTargetGroupPath` | internal/reconcile/reconciler.go:555-568 | The segment loop computes the mapping that the agreement and `PathShapes.MapsToExactly` are stated for. |
| `PathShapes.MapsToExactly` | internal/reconcile/reconciler.go:555-568 | A relative path maps to a GitLab path exactly if that is the parent without slashes at its ends, a slash unless the parent is empty, and joined by slashes one non-empty slug for each piece between slashes. |
| `PathShapes.SlugExactly` | internal/reconcile/reconciler.go:553-562 | The slug of a piece is unique: lowered, cut into runs of characters in and outside `[a-z0-9_-]`, each outer run replaced by one dash, then dashes and underscores trimmed off both ends. |
| `PathShapes.TeamPlatform` | internal/reconcile/reconciler.go:555-568 | `Team Platform` below `managed` is `managed/team-platform`. |
| `PathShapes.RelativeExactly` | internal/reconcile/reconciler.go:538-551 | A path is below a prefix exactly if, both without slashes at their ends, it is the prefix, a slash and something more. |
| `PathShapes.CanonicalExactly` | internal/config/config.go:259-265 | A declared path has the accepted form exactly if it is a slash and a path without slashes at its ends, strictly below the prefix. |
| `Paths.MapVaultSecretPath` | internal/reconcile/reconciler.go:570-588 | The same for Vault. |
| `PathShapes.VaultMapsExactly` | internal/reconcile/reconciler.go:570-588 | For Vault exactly the lowered pieces of prefix and path, each of 1 to 63 letters, digits, dashes and underscores, joined to at most 240 characters. |
| `Paths.MapDeclaredTargetPath` | internal/config/config.go:366-399 | The same for validation. |
| `Paths.ValidatePaths` | internal/config/config.go:258-293 | No error is reported exactly when every declared path is canonical, mappable, not repeated and collides with no other. |
| `Routes.IndexUnique` | internal/reconcile/events.go:159-177 | The three derived maps are determined by the members and the one current secret. |
| `Routes.UpdateIsReplace` | internal/reconcile/events.go:51-104 | Updating one group gives the very index that replacing the snapshot with that group substituted would give. |
| `Routes.ResolvesExactly` | internal/reconcile/events.go:113-139 | A group key resolves to that group exactly if it is indexed, a user key to exactly the groups having that user, and no user key is a group key. |
| `Routes.RouteIndex.Update` | internal/reconcile/events.go:72-104 | The incremental update keeps the index equal to a rebuild and changes nothing when the secret cannot be loaded. |
| `Routes.RouteIndex.Replace` | internal/reconcile/events.go:51-70 | A replaced snapshot is indexed exactly; a failed load changes nothing. |
| `Routes.RouteIndex.Refresh` | internal/reconcile/events.go:106-111 | A rotated secret rekeys the whole index and keeps its members. |
| `Routes.MembersSubstituted` | internal/reconcile/events.go:51-104 | The members of a snapshot with one group substituted are the old ones with that group's set replaced. |
| `Queue.RunKeeps` | internal/reconcile/events.go:247-422 | Every interleaving of producers, timers (stale ones too) and the consumer keeps the bound, the wake token and the timer. |
| `Queue.BoundedAndAwake` | internal/reconcile/events.go:351-422 | At every moment at most 10,000 entries; pending global work excludes the rest; pending work has a token or an undrained receipt; delayed work in an open queue has a callback pending or a timer no later than the earliest due time. |
| `Queue.NoHintLost` | internal/reconcile/events.go:247-336 | Whatever an open queue accepts is, at the next drain and through any interleaving, in the batch under its key with at least its flags, subsumed by a full repair, or still delayed with at least its flags. |
| `QueueFlags.HintServed` | internal/reconcile/events.go:247-292 | Flag by flag: after a hint to an open queue and whatever interleaving, the next batch is global, or has `jitRetry` at the user key of a LOGIN, `confirmMembership` at that of an UPDATE or DELETE, `allProviders` at the group key of a GROUP hint and `confirmRemoval` at that of any other DELETE. |
| `QueueFlags.NothingInvented` | internal/reconcile/events.go:247-336 | No key of a batch and no flag of a key without a cause: a hint for it since the last drain that asks for it, or delayed work for that group that carries it. |
| `Queue.MergedCovers` | internal/reconcile/events.go:399-422 | Releasing due work keeps every flag that was pending and takes in every flag that was due. |
| `Queue.MergeOne` | internal/reconcile/events.go:399-422 | Each released slot merges into its route alone, so the outcome does not depend on the order of release. |
| `Queue.ReleaseBound` | internal/reconcile/events.go:399-422 | A released batch never exceeds the bound. |
| `EventQueue.EventQueue.Add` | internal/reconcile/events.go:247-292 | The in-place update is the specified step, including collapse into a full repair on overflow; `QueueFlags.HintServed` says what it owes the hint. |
| `EventQueue.EventQueue.ScheduleGroup` | internal/reconcile/events.go:298-324 | Scheduling is the specified step: flags merged, due time replaced, timer reset. |
| `EventQueue.EventQueue.ReleaseDue` | internal/reconcile/events.go:399-422 | The callback, whatever order it visits delayed work in, is the specified step. |
| `EventQueue.EventQueue.ResetTimerLocked` | internal/reconcile/events.go:373-397 | The search for the earliest due time arms the held timer for exactly that time or now. |
| `EventQueue.EventQueue.Drain` | internal/reconcile/events.go:328-336 | The batch is all undelayed work and the queue keeps none of it. |
| `EventBatch.Consumer.ProcessEventBatch` | internal/reconcile/reconciler.go:83-148 | After a successful secret refresh either a full repair succeeded, or each group reached by a resolved key got exactly one targeted run with the OR of all its flags, every removal and login has its second look scheduled in its window, and what could not be resolved leaves a full repair due at a known time; a failed refresh changes nothing. |
| `EventBatch.Consumer.RunEventFullRepair` | internal/reconcile/reconciler.go:150-176 | Every event-driven full repair starts at least five seconds after any earlier start or success; one that may not start yet, or fails, is queued for exactly when it may. |
| `EventBatch.Consumer.RunScheduled` | internal/reconcile/reconciler.go:178-205 | The time that event-driven repairs are measured from never goes back, and after a scheduled success none may start for a full five seconds. |
| `EventBatch.OwedIsServed` | internal/reconcile/reconciler.go:93-129 | What the queue owed when it was drained is covered by the work computed for the batch, unless the batch calls for a full repair. |
| `EventBatch.HintAnswered` | internal/reconcile/reconciler.go:83-148 | From acceptance by an open queue, through any interleaving, until its batch is worked off: a hint is still delayed, or a full repair ran or waits, or every group it leads to had its targeted run with the flags it asked for. |
| `EventBatch.HintRuns` | internal/reconcile/reconciler.go:83-148 | The same flag by flag for one hint: once its batch is worked off, a full repair ran or waits, or its group had a run over all providers if it was a GROUP hint and with its removals looked at again if it was another DELETE, or so had every group of its user, with the second look of a LOGIN. |
| `EventBatch.ReachByGroup` | internal/reconcile/reconciler.go:96-104 | One more group key adds its flags to its group and to no other. |
| `EventBatch.ReachByUser` | internal/reconcile/reconciler.go:105-129 | One more user key adds its flags to exactly the groups filed under it. |
| `EventBatch.IndexRouted` | internal/reconcile/reconciler.go:112-117 | In a valid index every filed group has a routing key, so that fallback is never taken. |
| `Traversal.Keycloak.ListGroups` | internal/source/keycloak/client.go:68-82 | For any page sizes and faults: a snapshot is returned if and only if no call failed and nothing a reachable group lists is incomplete or listed twice, and then it holds each reachable group exactly once and no other, each after its listing parent; it terminates on cyclic and shared children. |
| `Traversal.Keycloak.CollectGroup` | internal/source/keycloak/client.go:117-148 | What one group adds is closed under children, clean, reachable and in order. |
| `Traversal.Keycloak.ListGroupsPage` | internal/source/keycloak/client.go:150-175 | The offset loop rebuilds the listing exactly for any page sizes of one or more; it fails exactly on a failed call or a repeated id. |
| `Traversal.Keycloak.ListMembers` | internal/source/keycloak/client.go:177-205 | The same for members, of which it keeps the enabled ones in order. |
| `Traversal.CollectedAll` | internal/source/keycloak/client.go:68-82 | A set closed from the roots with clean listings contains every reachable group. |
| `Payload.DecodePrint` | extensions/keycloak-event-listener/src/main/java/io/groupbridge/keycloak/WebhookPayload.java:113-160 | For every UTF-16 text, decoding what is printed by section 7 of RFC 8259 gives the text with each unpaired surrogate replaced by U+FFFD, and consumes nothing after it. |
| `Payload.PrintSendable` | extensions/keycloak-event-listener/src/main/java/io/groupbridge/keycloak/WebhookPayload.java:136-154 | What is printed has no raw control character and no unpaired surrogate. |
| `Payload.PayloadRoundTrip` | extensions/keycloak-event-listener/src/main/java/io/groupbridge/keycloak/WebhookPayload.java:46-66 | Every payload decodes to its eight distinctly named members in order, nulls preserved, and the object is fit to be sent. |
| `Payload.RepairedStable` | extensions/keycloak-event-listener/src/main/java/io/groupbridge/keycloak/WebhookPayload.java:141-152 | Text survives unchanged exactly if it has no unpaired surrogate. |
| `Payload.ToJson` | extensions/keycloak-event-listener/src/main/java/io/groupbridge/keycloak/WebhookPayload.java:46-64 | The appended text is the printed object. |
| `Payload.AppendString` | extensions/keycloak-event-listener/src/main/java/io/groupbridge/keycloak/WebhookPayload.java:113-134 | The index loop, which skips the low half of a pair, appends the printed string. |
| `ResourcePath.GroupIdExact` | extensions/keycloak-event-listener/src/main/java/io/groupbridge/keycloak/WebhookPayload.java:68-88 | A group is read off a resource path exactly if the path is the one written for it. |
| `ResourcePath.UserIdExact` | extensions/keycloak-event-listener/src/main/java/io/groupbridge/keycloak/WebhookPayload.java:90-101 | The same for a user. |
| `Webhook.AcceptancesApart` | internal/webhook/keycloak.go:205-222 | In every run with a clock that never goes back, two acceptances of one delivery id are more than `maxSkew` apart. |
| `Webhook.NoReplay` | internal/webhook/keycloak.go:200-222 | A request is accepted twice only if its timestamp was ahead of the clock at the first acceptance by more than the second try's own delay. |
| `Webhook.ReplayableExactly` | internal/webhook/keycloak.go:200-222 | With one clock reading per request, an accepted request can be accepted again later if and only if its timestamp was ahead of the clock. |
| `Webhook.ReplayExample` | internal/webhook/keycloak.go:200-222 | A request five units ahead is accepted twice within a window of five. |
| `Webhook.RunBound` | internal/webhook/keycloak.go:217-220 | At most ten thousand delivery ids are remembered after any run. |
| `Webhook.ClassifyExact` | internal/webhook/keycloak.go:108-181 | An event is taken if and only if its kind is known and it carries at most one key, allowed for that kind and well formed; without a key it asks for a full repair. |
| `Webhook.VettedMeans` | internal/webhook/keycloak.go:62-98 | A request reaches the replay check if and only if it is a readable POST, fresh, signed under a long enough secret, for this realm, under its own delivery id, with an acceptable event. |
| `Webhook.Handler.ServeHTTP` | internal/webhook/keycloak.go:62-106 | Only a vetted request changes the remembered set; it is handed on exactly if the replay window admits it, and everything else that is a POST is counted as rejected. |
| `Webhook.Handler.Replayed` | internal/webhook/keycloak.go:205-222 | The pruning loop leaves exactly the entries within the window, and the id is entered exactly if it is new and fits. |

## Left out

- HTTP transport, TLS reloading, token fetching and caching, metrics, logging and signal handling: no algorithm of their own. Each API call is one step with a fault.
- JSON and YAML libraries: the state file is a torn or a whole image, request bodies decode by an arbitrary function. UTF-8 encoding of the payload is a library call; `Payload.PrintSendable` proves the condition under which it is exact.
- HMAC and SHA-256: any function that separates domains and identifiers; signature checking is an arbitrary predicate.
- Member pagination in GitLab is one call that returns the roster in any order; currentIdentity is asked once per pass.
- Go's fixed-width integers: absence counts and member levels are unbounded here.
- Strings are sequences of characters; length limits that Go applies to bytes apply to characters here.
- `waitForTriggerBurst` only absorbs wake tokens before a drain (`Queue.Absorb`); how long it waits is not modelled.
- EventBatch.Consumer.ProcessEventBatch: targeted runs and full repairs inside a batch also update the routing index; that is not modelled here, because a batch resolves all its keys before the first run. Producers and timers running meanwhile are covered by the queue's interleaving theorems.
- Traversal.Keycloak.ListGroups: the realm is fixed while it is read. `ReadGroup`, a single call with field checks, is not modelled.
- Vault provider calls and policy text: read-only comparisons. Only the Vault path mapping is modelled, and Vault jobs as jobs that leave GitLab and ledger alone.
- The Java executor, transaction hook and configuration parsing, `StableLoader` and event filters.
- TurnConvergence.TwoTurnsConverge: the targets of all jobs exist and all rules prune authoritatively; creation in a first pass is covered target by target in `SyncConvergence.TwoPassesConverge`.
- Retirement.RetirementExact: rosters are kept per ownership key, so two keys are taken for two servers. An address changed to another name of the same server shows the same members under both keys, and an authoritative tombstone pass would clean them.
- Injectivity of targets for rules with declared paths: mappings held by the allowlist do not claim their target, so it is not claimed.
