# The OpenClaw service broker, verified

A Dafny model of the broker that provisions one OpenClaw agent VM per service instance through a BOSH Director, and proofs about it. `dafny verify dfyconfig.toml` checks everything.

## What is modelled

**The broker as a concurrent system** (`Protocol.dfy`). Each handler of the broker releases its lock around the Director and UAA calls and carries a record reference across the gap. The model has a growing heap of records, the map from instance ids to references, the upgrade tracker, and any number of handlers, each at the point where it last released the lock. One step is one lock section or one remote call; the Director's answers, the random secrets and the order of steps are arbitrary. What each lock section computes is in `Handlers.dfy`, on the values of `Domain.dfy`. On top of it:

- `Invariant.dfy`, `Reachable.dfy`: what every reachable state satisfies, whatever plans and versions a state file was written under (identity of records, routes, SSO clients, the deployment each call names, the ids in manifests).
- `Plans.dfy`: which records agree with the plan table.
- `Tracker.dfy`: which records the upgrade tracker can name.
- `Quota.dfy`: the quotas over every interleaving, with a ledger of the entries that Update adopts and of those that leave "deprovisioning".
- `Isolation.dfy`: which steps can touch one instance id; `Exclusive.dfy` and `Latch.dfy` use it for deletes and for polls.
- `Alone.dfy`, `AloneAdmin.dfy`: a handler whose steps run without others in between does what its sequential form says, for all seven handlers.
- `Writers.dfy`: which section can change which field of a record, which entry and which tracked task, and that the closing sections write also when the record has changed under their handler.
- `Deployments.dfy`: what the deployed manifests hold, for every interleaving and for each kind of handler.
- `Readiness.dfy`: when an instance can be bound, in any state and over runs.

**The broker as an object** (`Sequential.dfy`, `Restart.dfy`, `Broker.dfy`). Handlers that run one after another, as functions on the instance map, and as methods of a class that updates `Instance` objects and its map in place and writes the state file. Each method is proved against its function; failure atomicity, the lifecycle, upgrade accounting and what a restart loses are proved of the functions. `Answers.dfy` and `Records.dfy` say what the functions come to without using their names: what every request is answered, and the record it leaves, field by field, in terms of the request, the entries, the places in the plan list and the Director's answers.

**The rolling upgrade** (`Rollout.dfy`, `StaleTracker.dfy`, `UpgradeErrand.dfy`): the runs of the upgrade errand, with its canary arithmetic, its two upgrade calls and the status polls after each, and exactly when they bring the whole fleet up to date; how the broker reaches the states in which they do not; and the errand itself as loops that drive the broker object.

**The text pipeline** (`Strings.dfy`, `Decimal.dfy`, `Hostname.dfy`, `Yaml.dfy`, `Manifest.dfy`, `Version.dfy`, `TaskId.dfy`): Go's string functions, then hostnames, YAML escaping, the blocked-command list, PEM blocks, the version gate and task ids.

**The token cache** (`TokenCache.dfy`): the UAA token of the Director client over runs with a clock, with Go's 64-bit wrap-around.

## Findings

Some statements one would expect are false of the code. The model keeps the code, and the exact condition is proved:

- A restart of the broker is not always invisible, even when the state file equals the memory: the file does not hold the upgrade tracker, and the status endpoint moves tracked instances to "ready" or "failed". It is invisible to all later requests if and only if no upgrade is being tracked (`Restart.RestartInvisibleExactly`); without a later status call it always is (`Restart.RestartBetweenHandlers`). A handler leaves file and memory apart if and only if it is an update, of an unknown id or to another existing plan, whose deployment then fails (`Restart.HandleDurableExactly`).
- The tracker keeps ids of instances that are gone. A later delete of such an id, then unknown to the broker, makes a version-less record under it, and a status poll that finds the old upgrade task done turns that record into an active instance. With d such dormant records the two calls of the errand, all deploys accepted, cover the fleet in every run if and only if nothing is outdated or max(0, outdated - canaries) + d <= max(0, total - canaries) (`Rollout.RolloutCoversExactly`). `StaleTracker.DormantInstanceEscapes` reaches a state where they do not; within one broker process every dormant record is without a version like that one (`StaleTracker.DormantIsVersionless`, from `Tracker.TrackedVersions`).
- The errand reports success when its canary call started no deploy, and so also when every canary deploy was refused: the count of zero in the reply reads as nothing left to upgrade (`jobs/upgrade-agents/templates/bin/run.erb:67-70`). So some run that is reported as a success leaves an instance outdated if and only if one is outdated before it (`Rollout.SuccessLeavesExactly`), and every errand whose canary deploys are all refused ends like that and changes nothing (`UpgradeErrand.RunErrand`).
- The errand's healthy count includes every tracked id, also of instances that are gone, so an errand that got past its canaries can complete with an instance left behind. It can do so if and only if the timeout is positive and either something is outdated, something dormant, and tracked and outdated ids together reach the healthy count asked for, or two or more are outdated and that count is reached without one of them (`Rollout.ErrandLeavesExactly`). `StaleTracker.EarlierUpgradesCountAsHealthy` reaches such a state. When every tracked id is an active instance on the new version, as with an empty tracker, a completed errand means that the whole fleet is ready (`Rollout.CompletedMeansReady`).
- The manifest writes the instance id between quotes without escaping it. It reads back as the id if and only if the id has no quote, no backslash and no control character or line break (`Reachable.IdScalarsReadBackExactly`). Ids that pass Provision's check always qualify, but Update takes any id (`Reachable.UpdateDeploysAnyId`).
- Update does not check the instance id. A hostname is a DNS label if and only if something of the id survives sanitizing (`Hostname.HostnameIsLabelExactly`); ids that pass Provision's check always qualify.
- Hostnames of different ids can be equal. For some pair of owners they are if and only if the sanitized ids are alike: they have the same key, which is the id itself up to 58 characters and otherwise its first 58 without final hyphens, or one id of at most 58 characters is the tail of the other's key behind a hyphen that follows an alphanumeric (`Hostname.HostnamesCollideExactly`, `Hostname.ProvisionedCollideExactly`). So ids of one length of at most 58 never share a host (`Hostname.AlikeAtOneLength`), ids of 59 to 64 characters, which Provision accepts, do when they agree in the first 58 (`Hostname.LongIdsCollide`), and ids of different lengths can (`Hostname.UnequalLengthsCollide`).
- Escaping a text twice is harmless if and only if it has no quote and no backslash (`Yaml.SanitizeIdempotentExactly`), so the in-place edit of the command list is safe only because the list is built anew for each manifest.
- A cached token is served to the last nanosecond that margin and HTTP timeout allow, unless the lifetime wraps at 64 bits (`TokenCache.MarginMatchesTimeout`).
- An update redeploys its instance in any case, but a record that disagrees with the plan table, because the table has changed since the state file was written, comes to agree with it if and only if the update names another plan (`Plans.UpdateRefreshesExactly`). In every reachable state a record agrees with the plan its id finds, or has the plan fields it was loaded with (`Plans.PlansAgree`).
- A task id of zero reads as "no task yet": a lifecycle gives the map back if and only if its delete task is not zero (`Sequential.LifecycleRoundTrip`).
- A version text with a negative day does not parse back, because the sign starts the suffix; all others do (`VersionGate.ParseVersionText`).
- A Director URL that itself contains "/tasks/" hides every task id (`TaskId.TaskIDRoundTripExactly`).

The code also differs from its own documentation, and the model follows the code: `README.md:186` promises token rotation on update, but an update of a known instance keeps its token, and only one that the broker has to adopt gets new secrets (`Sequential.UpdatedCredentials`); `README.md:272` speaks of a target version, but an upgrade goes to the broker's configured version and ignores the request's target version and parallelism.

## Model

| member | source | states |
|---|---|---|
| Handlers.FirstIsFound | src/openclaw-broker/broker/broker.go:217-228 | with repeated plan ids the first plan of the list is found |
| Handlers.PlanIsFound | src/openclaw-broker/broker/broker.go:217-228 | a plan id finds the plan at its first place in the configured list, or in the built-in one when none is configured, and nothing when no plan has it |
| Handlers.CountsActive | src/openclaw-broker/broker/broker.go:194-214 | the two counts are those of the entries that are not deprovisioning, in all and of the organization |
| Invariant.RunKeepsInv | src/openclaw-broker/broker/provision.go:126-145 | over any run of any interleaving, entries keep their own id, references stay good, every record keeps id, owner, organization, deployment, token, seed, host and domain |
| Invariant.EmptySatisfiesInv | src/openclaw-broker/broker/broker.go:115-119 | a broker with no instances satisfies the invariant that every claim on reachable states starts from |
| Invariant.StepKeepsInv | src/openclaw-broker/broker/update.go:47-98 | every single lock section or remote call of any handler keeps that invariant, also writes through references that have left the map |
| Plans.RecoveredIsOnPlan | src/openclaw-broker/broker/update.go:50-83 | a recovery record has the id, name, VM type and disk type of the first plan with the requested id, or of the first plan of all, and agrees with the plan its stored id finds, also with duplicate plan ids |
| Invariant.InsertsAreBegins | src/openclaw-broker/broker/provision.go:60-164 | only three sections ever add an entry; Provision's does so having found both quotas respected |
| Reachable.ManifestsCarryIdentity | src/openclaw-broker/broker/provision.go:301-322 | every manifest about to be deployed for a record, at any later moment and by any handler, carries the record's original deployment, owner, token, seed, host and domain |
| Reachable.SsoNamesOwnClient | src/openclaw-broker/broker/provision.go:280-285 | in every reachable state a manifest with SSO on names the OAuth2 client of its own instance |
| Deployments.StepDescribes | src/openclaw-broker/broker/provision.go:235-340 | in any state, the manifest a handler starts to deploy has every field of its record, SSO exactly with a client, the zones and browser of the first plan with the record's plan id, and the blocked commands |
| Deployments.ManifestsDescribe | src/openclaw-broker/broker/admin.go:80-92 | over every run of any interleaving, a manifest about to be deployed describes its record as it was at a moment of the run |
| Deployments.ProvisionDeploys | src/openclaw-broker/broker/provision.go:126-198 | Provision deploys the VM, disk, name, zones and browser of the first plan with the requested id, the broker's version, and SSO with the drawn secrets exactly when SSO and the UAA are configured and the client was created |
| Deployments.UpdateDeploys | src/openclaw-broker/broker/update.go:46-103 | Update deploys the record as it is, moved to the first plan with the requested id, or adopted on it or on the first plan of all |
| Deployments.UpgradeDeploys | src/openclaw-broker/broker/admin.go:80-85 | AdminUpgrade deploys for an active outdated record the manifest of that record |
| Writers.ChangesExplained | src/openclaw-broker/broker/provision.go:167-223 | in every state and for every step, each field of a record changes only in the sections that are there to change it, and to the value they bring |
| Writers.RemovalsExplained | src/openclaw-broker/broker/deprovision.go:52-60 | entries leave the map only by a rollback, by undoing a delete of an unknown id, or by the poll that finds a delete done, and only an upgrade's own deploy is tracked |
| Writers.WritesLand | src/openclaw-broker/broker/deprovision.go:91-105 | a closing section writes its task, state or version, or removes its entry, also when the record has changed since its handler took the reference |
| Readiness.BindStepAnswers | src/openclaw-broker/broker/binding.go:25-53 | in every state a Bind gets credentials exactly for a known ready instance, is refused for a known one in any other state, not found otherwise, and changes nothing |
| Readiness.BindsStay | src/openclaw-broker/broker/binding.go:25-53 | a Bind is answered the same at every later moment until a handler about the instance, other than a Bind, takes a step |
| Readiness.FailedPollRefusesBinds | src/openclaw-broker/broker/last_operation.go:52-56 | in any state, a poll that hears of a failed deployment makes the record failed and the next Bind is refused |
| Readiness.MarkedRefusesBinds | src/openclaw-broker/broker/deprovision.go:32-86 | from the section on that marks an instance for deletion a Bind is refused |
| Readiness.CheckStep | src/openclaw-broker/broker/admin.go:135-160 | in any state, a status check of one task makes the id's entry ready when it is done, failed when it ended in error or was cancelled, leaves all else alone, and counts it once |
| Readiness.UnboundUntilDone | src/openclaw-broker/broker/last_operation.go:36-60 | over every run of any interleaving, from a state in which no record of an id is ready or about to become so, no Bind of the id gets credentials until the Director has reported one of its tasks as done |
| Reachable.BindsCarryIdentity | src/openclaw-broker/broker/binding.go:25-53 | every Bind of a record, at any later moment, is refused exactly while the record is not ready and otherwise answers with the record's original credentials |
| Reachable.CallsNameOwnDeployment | src/openclaw-broker/broker/deprovision.go:82-91 | in every reachable state no deploy or delete call for one id names another id's deployment |
| Reachable.SharedRoutesAreAlike | src/openclaw-broker/broker/provision.go:343-364 | in every reachable state two entries with one non-empty route have ids that are alike, whatever the owners, recovered records included |
| Reachable.RoutesAreDistinct | src/openclaw-broker/broker/provision.go:343-364 | so canonical ids of one length of at most 58 have pairwise distinct routes in every reachable state |
| Reachable.RoutesAreLabels | src/openclaw-broker/broker/update.go:81 | in every reachable state a route is a DNS label exactly when something of the id survives sanitizing |
| Reachable.IdScalarsReadBackExactly | src/openclaw-broker/bosh/manifest.go:72 | in every reachable state the id scalar of a manifest is made from the id of its record and reads back as it exactly when the id needs no escaping, as ids that pass the check never do |
| Reachable.UpdateDeploysAnyId | src/openclaw-broker/broker/update.go:47-103 | an Update of any unknown id has a manifest with that id deployed, which so reads back only under that condition |
| Yaml.RawReadsBackExactly | src/openclaw-broker/bosh/manifest.go:72 | text written between quotes without escaping reads back exactly when it has no quote, no backslash and nothing that cannot stand on the line |
| Plans.UpdateRefreshesExactly | src/openclaw-broker/broker/update.go:84-104 | an accepted update of a known instance brings its plan fields in line with the plan table exactly when they were or when it names another plan |
| Plans.PlansAgree | src/openclaw-broker/broker/update.go:86-98 | after any run, also with failed updates, an entry shows the name, VM type and disk type its plan id finds, or no plan at all, or the plan fields it had before the run |
| Quota.QuotaOverRuns | src/openclaw-broker/broker/provision.go:69-87 | over every run the active entries, in all or of one organization, never exceed the limit (or the initial count) by more than the run's ledger of adoptions and revivals |
| Quota.CreditIsOneEvent | src/openclaw-broker/broker/update.go:44-83 | one step adds at most one to the ledger, so it counts adoption and revival events |
| Quota.ReserveRespectsLimit | src/openclaw-broker/broker/provision.go:161-164 | a reservation keeps the count within the limit because check and reserve share a lock section |
| Quota.AdoptionHasNoOrg | src/openclaw-broker/broker/update.go:67-82 | an Update adopts into no organization, so an organization's ledger holds revivals only |
| Quota.UpdateIgnoresQuota | src/openclaw-broker/broker/update.go:44-83 | an Update of an unknown id adds an entry whatever the limit is |
| Tracker.RunKeepsTracker | src/openclaw-broker/broker/admin.go:97-108 | over any run of any interleaving, a record from an earlier configuration is the only one with its id and is not tracked, and a handler fills the tracker only after the record is on the configured version |
| Tracker.TrackedVersions | src/openclaw-broker/broker/admin.go:97-108 | from any loaded state file, in every interleaving, an instance the tracker names is on the configured version or on none |
| Isolation.Undisturbed | src/openclaw-broker/broker/admin.go:80-112 | a step of a handler on other ids changes neither k's entry, nor its record, nor the handlers about k |
| Exclusive.DeletesExclude | src/openclaw-broker/broker/deprovision.go:32-105 | while only Deprovision handlers begin on an id, known or unknown, no two are between marking and outcome and the Director accepts at most one delete |
| Latch.PollsLatch | src/openclaw-broker/broker/last_operation.go:23-91 | with a stable Director and only polls on a provisioning record, after one poll answers succeeded or failed every later poll answers the same without asking |
| Alone.ProvisionAlone | src/openclaw-broker/broker/provision.go:33-233 | Provision's sections run alone have the map effect and the answer of its sequential form |
| Alone.DeprovisionAlone | src/openclaw-broker/broker/deprovision.go:17-114 | the same for Deprovision |
| Alone.UpdateAlone | src/openclaw-broker/broker/update.go:20-125 | the same for Update |
| Alone.PollAlone | src/openclaw-broker/broker/last_operation.go:16-92 | the same for LastOperation |
| AloneAdmin.BindAlone | src/openclaw-broker/broker/binding.go:21-58 | the same for Bind, which changes nothing |
| AloneAdmin.UpgradeAlone | src/openclaw-broker/broker/admin.go:47-116 | for every choice the candidate loop can make, AdminUpgrade's sections have the map effect, the tracker effect and the answer of the sequential upgrade |
| AloneAdmin.StatusAlone | src/openclaw-broker/broker/admin.go:120-169 | in whatever order it visits the tracked instances, AdminUpgradeStatus has the effect and the answer of the sequential check |
| Sequential.FailedProvisionLeavesMap | src/openclaw-broker/broker/provision.go:201-218 | a Provision not answered 202 leaves every field of every entry as it was |
| Sequential.FailedDeprovisionLeavesMap | src/openclaw-broker/broker/deprovision.go:51-100 | a Deprovision not answered 202 leaves every field of every entry as it was |
| Sequential.ProvisionAcceptedExactly | src/openclaw-broker/broker/provision.go:33-233 | Provision is answered 202 exactly when it is admitted and deployed, and then adds one entry |
| Sequential.DeprovisionAcceptedExactly | src/openclaw-broker/broker/deprovision.go:17-114 | Deprovision is answered 202 exactly when the delete is accepted or already under way, and then the entry is deprovisioning and the others are untouched |
| Sequential.AdmitsExactly | src/openclaw-broker/broker/provision.go:37-159 | a slot is reserved exactly when id, quotas, version gate, a listed plan, zones of that plan or in all, and domain allow it |
| Answers.ProvisionAnswers | src/openclaw-broker/broker/provision.go:37-233 | Provision is answered by the first check that fails, in the code's order, of id, async, body, conflict, the two quotas, version, plan, zones, domain, rendering and deployment, and 202 when none does |
| Answers.DeprovisionAnswers | src/openclaw-broker/broker/deprovision.go:17-114 | Deprovision is answered by the order async, delete under way, refused delete of a known or unknown id, and 202; one under way changes nothing |
| Answers.UpdateAnswers | src/openclaw-broker/broker/update.go:20-124 | Update is answered by the first of async, body, a move to an unlisted plan, rendering and deployment that fails, and 202 when none does |
| Answers.PollAnswersAtOnce | src/openclaw-broker/broker/last_operation.go:23-88 | a poll of an entry that waits for no task changes nothing and answers exactly from the entry's state |
| Answers.PollAsks | src/openclaw-broker/broker/last_operation.go:36-81 | a poll of one that waits reports the task and writes its outcome: ready or failed after a deployment, removed after a delete, kept after a failed one |
| Answers.BindAnswers | src/openclaw-broker/broker/binding.go:25-53 | credentials exactly for a known ready instance, all nine its own; not ready for any other known one; not found otherwise |
| Answers.FailedDeployRefusesBinds | src/openclaw-broker/broker/last_operation.go:52-88 | after a poll that answers failed for a provisioning instance a Bind is refused and every later poll answers failed without asking |
| Answers.DeleteRefusesBinds | src/openclaw-broker/broker/deprovision.go:32-114 | after any accepted Deprovision a Bind is refused |
| Answers.StatusSetsStates | src/openclaw-broker/broker/admin.go:135-157 | a status check makes a tracked entry ready when its task is done, failed when it ended in error or was cancelled, and changes nothing else |
| Answers.StatusCounts | src/openclaw-broker/broker/admin.go:129-160 | the reply counts done tasks, tracked ids, tasks that failed or cannot be asked after, and the others |
| Answers.StatusDecidesBinds | src/openclaw-broker/broker/admin.go:142-156 | after a failed upgrade task a Bind is refused and a poll answers failed at once; after a done one it is bound and a poll answers succeeded at once |
| Records.ProvisionedRecord | src/openclaw-broker/broker/provision.go:102-221 | an accepted Provision adds one record, all twenty fields of it given by the request, the first plan with the requested id, the configuration and the drawn secrets |
| Records.AdoptedRecord | src/openclaw-broker/broker/update.go:46-122 | an accepted Update of an unknown id adds one record, on the first plan with the requested id or on the first of all |
| Records.MovedRecord | src/openclaw-broker/broker/update.go:86-122 | an accepted Update to another plan changes the plan fields to those of the first plan with the id, the state and the task, and nothing else |
| Records.RedeployedRecord | src/openclaw-broker/broker/update.go:100-122 | an Update on the same plan changes the state and the task and nothing else |
| Records.FailedUpdateWrites | src/openclaw-broker/broker/update.go:67-116 | what an Update whose deployment fails has written by then |
| Records.DeprovisionedRecord | src/openclaw-broker/broker/deprovision.go:32-109 | an accepted Deprovision changes state and task of a known record and nothing else, and makes an empty record for an unknown id |
| Sequential.ProvisionedCredentials | src/openclaw-broker/broker/provision.go:111-194 | what a client gets that provisions, polls and binds: the drawn secrets, its route, the name of the first plan with the requested id, and SSO exactly when SSO and the UAA are configured and a client was created |
| Sequential.UpdatedCredentials | src/openclaw-broker/broker/update.go:44-122 | what a client can bind after an accepted update and a poll: a known instance keeps all credentials but the plan name, an adopted one gets new secrets, a route and the plan asked for or the first one, and with task id zero nothing becomes ready |
| Sequential.LifecycleRoundTrip | src/openclaw-broker/broker/last_operation.go:36-80 | provision, poll, deprovision, poll gives back the starting map exactly when the delete task id is not zero |
| Sequential.UpgradeAccounting | src/openclaw-broker/broker/admin.go:65-112 | after a call, also with failed deploys, the outdated set is the old one without the accepted candidates, and the numbers add up |
| Sequential.UpgradeTracksTask | src/openclaw-broker/broker/admin.go:97-108 | an upgraded record waits for the very task the tracker holds for it |
| Records.ChoiceExactly | src/openclaw-broker/broker/admin.go:65-78 | the candidates are distinct instances that are not deprovisioning and on another version, as many as there are up to count |
| Records.UpgradeWrites | src/openclaw-broker/broker/admin.go:80-112 | an accepted candidate is provisioning its own task on the new version and tracked with it; a refused one, and its place in the tracker, stay |
| Records.UpgradeLeaves | src/openclaw-broker/broker/admin.go:80-112 | no other record and no other tracked task changes |
| Sequential.OutdatedAfterCalls | src/openclaw-broker/broker/admin.go:65-112 | n flawless calls leave max(0, outdated - n * count) outdated |
| Sequential.CallsToFinishExactly | src/openclaw-broker/broker/admin.go:65-112 | flawless calls bring the fleet up to date exactly from ceil(outdated / count) calls on |
| Sequential.StatusAddsUp | src/openclaw-broker/broker/admin.go:129-160 | healthy, failed and in-progress add up to the total |
| Restart.FailedUpdateKeepsMapExactly | src/openclaw-broker/broker/update.go:44-115 | an update not answered 202 leaves the map as it was exactly when the id is known and no move to another existing plan was asked for, or the request was refused at once |
| Restart.SavesExactly | src/openclaw-broker/broker/last_operation.go:46-77 | a handler makes the file the map it leaves exactly when it is an accepted request with an effect, a poll with an outcome to write, or a served upgrade or status call, and else leaves it alone |
| Restart.HandleDurableExactly | src/openclaw-broker/broker/broker.go:130-150 | a handler keeps state file and memory equal exactly when it is not an update, of an unknown id or to another existing plan, whose deployment fails |
| Restart.RunIsDurable | src/openclaw-broker/broker/broker.go:130-150 | at every boundary of a run without such updates the file equals the memory |
| Restart.RestartInvisibleExactly | src/openclaw-broker/broker/broker.go:152-173 | a restart at a durable moment changes no later answer exactly when no upgrade is tracked |
| Restart.RestartBetweenHandlers | src/openclaw-broker/broker/broker.go:113-126 | a restart between any two handlers changes no later answer when no status call follows |
| BrokerObject.NormalizePlans | src/openclaw-broker/broker/broker.go:178-190 | the in-place pass turns every plan of the list into its normalized form |
| BrokerObject.NormalizeSettles | src/openclaw-broker/broker/broker.go:178-190 | a second pass changes nothing; given ids and descriptions are kept, missing ids are made from the name, missing descriptions taken from the plan description or made from the name, and the rest stays |
| BrokerObject.DefaultPlansAreFound | src/openclaw-broker/broker/broker.go:230-257 | the built-in plans are already normalized, and without configured plans each is found under the id made from its name, with its own VM and disk type |
| BrokerObject.Broker.constructor | src/openclaw-broker/broker/broker.go:113-173 | New normalizes the plans and takes the instances from the state file, with an empty tracker |
| BrokerObject.Broker.SaveState | src/openclaw-broker/broker/broker.go:130-150 | the file becomes the instance map when there is a state directory and the write works, and is left alone otherwise |
| BrokerObject.Broker.CountInstances | src/openclaw-broker/broker/broker.go:194-214 | the counting loop, in any map order, returns the number of active entries, of all or of one organization |
| BrokerObject.Broker.FindPlanByID | src/openclaw-broker/broker/broker.go:217-228 | the search loop finds what FindPlan finds |
| BrokerObject.Broker.CheckAdmission | src/openclaw-broker/broker/provision.go:37-159 | Provision's checks in their order |
| BrokerObject.Broker.Provision | src/openclaw-broker/broker/provision.go:33-233 | the new map, the answer and the save of the sequential Provision |
| BrokerObject.Broker.Deprovision | src/openclaw-broker/broker/deprovision.go:17-114 | the new map, the answer and the save of the sequential Deprovision |
| BrokerObject.Broker.Update | src/openclaw-broker/broker/update.go:20-125 | the new map, the answer and the save of the sequential Update |
| BrokerObject.Broker.LastOperation | src/openclaw-broker/broker/last_operation.go:16-92 | the new map, the answer and the save of the sequential Poll |
| BrokerObject.Broker.Bind | src/openclaw-broker/broker/binding.go:21-58 | the answer of the sequential Bind |
| BrokerObject.Broker.AdminListInstances | src/openclaw-broker/broker/admin.go:13-42 | each active instance is listed once, with the six fields of its record, and nothing else is |
| BrokerObject.Broker.CollectCandidates | src/openclaw-broker/broker/admin.go:65-78 | in any map order the loop collects min(count, outdated) distinct outdated instances |
| BrokerObject.Broker.AdminUpgrade | src/openclaw-broker/broker/admin.go:47-116 | the map, the tracker, the count and the save of the sequential upgrade for some candidate choice |
| BrokerObject.Broker.AdminUpgradeStatus | src/openclaw-broker/broker/admin.go:120-169 | every tracked instance still in the map takes its task's outcome; the counts are those of the answers |
| Rollout.CanaryCountIsCeiling | jobs/upgrade-agents/templates/bin/run.erb:47-51 | the canary count is the least positive number that is at least pct percent of the fleet, and at most the fleet exactly when pct is at most 100 |
| Rollout.PollsAddNoOutdatedExactly | src/openclaw-broker/broker/admin.go:142-156 | status polls can add no outdated instance exactly when no tracked one is being deprovisioned on another version |
| Rollout.RolloutCoversExactly | jobs/upgrade-agents/templates/bin/run.erb:56-114 | with all deploys accepted, every run of the two calls, with any polls between them, leaves nothing outdated exactly when nothing is outdated before or what the canaries leave and all that is dormant fit into the second call |
| Rollout.RolloutCovers | jobs/upgrade-agents/templates/bin/run.erb:56-114 | so with nothing dormant and all instances counted no active instance is left on another version, whatever the percentage |
| Rollout.ErrandLeavesExactly | jobs/upgrade-agents/templates/bin/run.erb:75-143 | some errand that got past its canaries and completed, with any deploys refused, leaves an active instance outdated exactly under a condition on the outdated, dormant and tracked ids at its start |
| Rollout.SuccessLeavesExactly | jobs/upgrade-agents/templates/bin/run.erb:56-143 | over both ends reported as a success, some run leaves an active instance outdated exactly when one is outdated before |
| Rollout.EndedAtOnce | jobs/upgrade-agents/templates/bin/run.erb:65-70 | an errand whose canary call started no deploy changes nothing, and had no candidates exactly when nothing is outdated |
| Rollout.FlawlessErrandCovers | jobs/upgrade-agents/templates/bin/run.erb:56-143 | a completed errand whose deploys were all accepted leaves nothing outdated when nothing was dormant |
| Rollout.AllHealthyMeansReady | jobs/upgrade-agents/templates/bin/run.erb:126-129 | in a fresh rollout, a healthy count of the whole fleet means the whole fleet is ready on the new version |
| Rollout.CompletedMeansReady | jobs/upgrade-agents/templates/bin/run.erb:56-143 | when all tracked before were active and on the version, a completed errand means the whole fleet is ready on it, also if deploys failed on the way |
| StaleTracker.DeletedStaysTracked | src/openclaw-broker/broker/admin.go:103-108 | an instance that is upgraded and then deprovisioned is gone from the map and stays in the tracker |
| StaleTracker.EarlierUpgradesCountAsHealthy | jobs/upgrade-agents/templates/bin/run.erb:120-129 | of three outdated instances one is upgraded and deprovisioned; then an errand over the other two can complete and leave one outdated |
| StaleTracker.DormantInstanceEscapes | src/openclaw-broker/broker/deprovision.go:34-49 | after one more delete of the id that is gone, its stub is dormant, and the two calls need not cover a fleet of one |
| StaleTracker.DormantIsVersionless | src/openclaw-broker/broker/admin.go:142-149 | in every reachable state of one broker process a dormant record has no version |
| UpgradeErrand.WaitHealthy | jobs/upgrade-agents/templates/bin/run.erb:75-95 | the waiting loop ends in time exactly at the first poll with enough healthy instances, and otherwise when the timeout has passed |
| UpgradeErrand.RunErrand | jobs/upgrade-agents/templates/bin/run.erb:26-143 | the errand makes one of these runs, ends as it does for the reason given, leaves the broker in the state after that run, and so keeps what completed runs promise; when every canary deploy is refused it reports success and changes nothing |
| Hostname.SanitizeIdempotent | src/openclaw-broker/broker/provision.go:369-378 | sanitizing gives DNS characters without hyphens at the ends, and sanitizing again changes nothing |
| Hostname.SanitizeIsOneMap | src/openclaw-broker/broker/provision.go:348-378 | sanitizing an owner without "@", or an id, is one map over its characters with the hyphens at the ends cut off |
| Hostname.CutAtSign | src/openclaw-broker/broker/provision.go:369-371 | what follows the first "@" of an owner has no part in its label |
| Hostname.OwnerLabelExactly | src/openclaw-broker/broker/provision.go:116-124 | for any owner text the label is the map of what stands before the first "@", and "agent" exactly when no letter or digit stands there |
| Hostname.AcceptedIdsExactly | src/openclaw-broker/broker/provision.go:18 | the id check accepts exactly 1 to 64 letters, digits, "_" and "-" with neither of the last two in front |
| Hostname.HostnameExactly | src/openclaw-broker/broker/provision.go:345-364 | a route is "oc-", the longest start of the owner that fits and does not end in a hyphen, a hyphen, and the sanitized id, of which 58 characters fit |
| Hostname.ProvisionedHostnameIsLabel | src/openclaw-broker/broker/provision.go:115-124 | for any owner and any id that passes the check the route is a DNS label starting with "oc-" |
| Hostname.HostnameIsLabelExactly | src/openclaw-broker/broker/provision.go:345-364 | for any id at all the route has at most 63 characters, and is a label exactly when something of the id survives |
| Hostname.IdSurvives | src/openclaw-broker/broker/provision.go:350-359 | a sanitized id of at most 58 characters is the whole tail of its route |
| Hostname.HostnameDeterminesID | src/openclaw-broker/broker/provision.go:343-364 | equal routes mean equal sanitized ids when these have one length of at most 58 |
| Hostname.HostnamesCollideExactly | src/openclaw-broker/broker/provision.go:343-364 | some owners give two ids one hostname exactly when the sanitized ids are alike |
| Hostname.ProvisionedCollideExactly | src/openclaw-broker/broker/provision.go:115-124 | the same over all owner texts a request can carry |
| Hostname.AlikeAtOneLength | src/openclaw-broker/broker/provision.go:350-359 | among ids of one length being alike is having one key, which up to 58 characters is being equal |
| Hostname.LongIdsCollide | src/openclaw-broker/broker/provision.go:350-359 | accepted ids of one length above 58 that agree in their first 58 characters have one hostname for every owner |
| Hostname.UnequalLengthsCollide | src/openclaw-broker/broker/provision.go:359 | a piece of the owner moved over the hyphen into the id leaves the hostname as it was |
| Hostname.UncheckedIDBreaksLabel | src/openclaw-broker/broker/update.go:75 | an unchecked id of underscores gives no label |
| Yaml.PassesAreOneMap | src/openclaw-broker/bosh/manifest.go:209-214 | the three passes equal one map over the characters |
| Yaml.SanitizeRoundTrip | src/openclaw-broker/bosh/manifest.go:209-214 | a reader of double-quoted scalars gets exactly the printable characters back and stops at the template's closing quote |
| Yaml.EscapedHasNoBareQuote | src/openclaw-broker/bosh/manifest.go:209-214 | the escaped text has no unescaped quote and no dangling backslash |
| Yaml.SanitizeIdempotentExactly | src/openclaw-broker/bosh/manifest.go:209-214 | escaping twice equals escaping once exactly for texts without quotes and backslashes |
| Manifest.BuildBlockedCommands | src/openclaw-broker/broker/provision.go:287-299 | the parsing loop returns a fresh list of the parsed commands |
| Manifest.SpellingsParseAlike | src/openclaw-broker/broker/provision.go:287-299 | comma, newline and CRLF spellings of the same commands parse to these commands |
| Manifest.ParseAcross | src/openclaw-broker/broker/provision.go:287-299 | any text parses to what stands before and what stands behind each separator |
| Manifest.ParseOne | src/openclaw-broker/broker/provision.go:293-298 | a text without separators is one command, trimmed, or none when it is blank |
| Manifest.ReturnsCountForNothing | src/openclaw-broker/broker/provision.go:291 | carriage returns change nothing, wherever they stand |
| Manifest.ReparseStable | src/openclaw-broker/broker/provision.go:287-299 | joining any parsed list with commas and parsing again returns it |
| Manifest.RenderBlockedCommands | src/openclaw-broker/bosh/manifest.go:246-248 | the in-place loop leaves every element escaped and writes the item lines |
| Manifest.RenderedListReadsBack | src/openclaw-broker/bosh/manifest.go:30-35 | the quoted items read back in order as the commands' printable characters |
| Manifest.BuildAndRenderTwice | src/openclaw-broker/bosh/manifest.go:246-248 | a second build and render is identical despite the in-place edit |
| Manifest.RenderingAgainSameExactly | src/openclaw-broker/bosh/manifest.go:246-248 | rendering one list twice is identical exactly when nothing in it needs escaping |
| Manifest.IndentPEM | src/openclaw-broker/bosh/manifest.go:218-228 | the padding loop over the lines |
| Manifest.IndentRoundTrip | src/openclaw-broker/bosh/manifest.go:218-228 | every line is indented and removing the indent gives the text without its final newlines |
| VersionGate.ParseVersionText | src/openclaw-broker/security/policy.go:14-33 | in-range decimals joined by dots, with or without a hyphen suffix, parse back exactly when the day is not negative |
| VersionGate.ParsesExactly | src/openclaw-broker/security/policy.go:14-33 | three parts between two dots, each a decimal, the third up to its first hyphen |
| VersionGate.ParsesOnly | src/openclaw-broker/security/policy.go:14-33 | nothing but three parts between two dots parses |
| VersionGate.BuiltInMinimum | src/openclaw-broker/security/policy.go:10-39 | without a configured minimum a version passes exactly from 2026.1.29 on |
| Decimal.AtoiExactly | src/openclaw-broker/security/policy.go:19-30 | a decimal part is an optional sign and digits whose value fits 64 bits |
| VersionGate.AcceptsExactly | src/openclaw-broker/security/policy.go:37-57 | a version passes exactly when it is not empty, both parse and it is lexicographically at least the minimum |
| VersionGate.GateIsTotalPreorder | src/openclaw-broker/security/policy.go:53-56 | on versions that parse the gate is reflexive, total and transitive |
| TaskId.TaskIDRoundTripExactly | src/openclaw-broker/bosh/client.go:166-179 | a base carries every task id through a 302 Location exactly when base + "/" does not contain "/tasks/" |
| TaskId.TaskIDHidden | src/openclaw-broker/bosh/client.go:166-179 | behind any other base the answer does not depend on the task |
| TaskId.RedirectReads | src/openclaw-broker/bosh/client.go:167-175 | of any redirect the number behind the first "/tasks/" is read, blanks before it skipped and text behind it ignored |
| TaskId.RedirectElsewhere | src/openclaw-broker/bosh/client.go:167-178 | a redirect without "/tasks/" gives no id |
| TaskId.BodyIdExactly | src/openclaw-broker/bosh/client.go:182-198 | another answer gives an id exactly when it is a 200 with a positive id in its body |
| TokenCache.Client.GetToken | src/openclaw-broker/bosh/client.go:62-107 | the cached token and the outcome of one call |
| TokenCache.LifetimeBound | src/openclaw-broker/bosh/client.go:95-104 | the cached lifetime is at most expires_in less a minute and not positive for lifetimes up to a minute, wrap-around included |
| TokenCache.CachedTokenIsFresh | src/openclaw-broker/bosh/client.go:62-107 | a token served from the cache was fetched earlier, is not past its own expires_in, and had more than a minute |
| TokenCache.MarginMatchesTimeout | src/openclaw-broker/bosh/client.go:48-104 | margin and HTTP timeout cancel, so that a token can be served until it expires, exactly when the lifetime does not wrap at 64 bits |

## Left out

- HTTP routing, JSON decoding, headers, basic auth, logging, `Catalog`, `Unbind` and `ValidateWebSocketOrigin`: requests and answers are datatypes, a body that does not decode is `None`.
- The Director and UAA calls themselves: their results are arbitrary inputs of the steps and methods. Deleting the UAA client is best effort and changes no broker state, so it has no step.
- Random tokens and secrets: values drawn by the handler, of which nothing is assumed.
- The manifest template beyond the parameters taken from record, plan and command list, the quoted item lines and the PEM blocks. Stemcell, network, release, sandbox and LLM settings come from the configuration alone; a record's provisioning parameters other than the owner are not read by the code.
- The writes Provision makes after releasing the lock (`src/openclaw-broker/broker/provision.go:167-194`) are one step of the protocol; tearing between them is not modelled.
- The state file in the concurrent protocol: saving is modelled for handlers that run one after another, as a copy of the records. JSON text and its failure to parse are not modelled.
- Tracker.TrackedVersions: assumes, as all claims on reachable states do, a start in which records name their own deployment, host and OAuth2 client and sit under their own id, which holds of every file written by the broker; nothing is assumed of their plans and versions.
- Reachable.IdScalarsReadBackExactly: speaks of the double-quoted id; reading the deployment name, which the manifest writes without quotes, is not modelled.
- Restart.HandleDurableExactly: assumes a configured state directory and writes that work, as do the other members of its module; the class methods model both cases.
- BrokerObject.Broker.constructor: assumes a file whose entries sit under their own ids, which every file written by the broker satisfies; an unreadable file is not modelled.
- Letters outside ASCII: lower-casing is modelled where its result is ASCII and lengths count characters, which differs from the code only in texts that sanitizing strips anyway.
- Sleeping, the operator's pause and curl's retries in the errand: a status or upgrade request is served or not, and its reply heard or lost. A reply of AdminUpgrade that is heard is read as the number it carries.
- UpgradeErrand.RunErrand: assumes no other request reaches the broker meanwhile.
