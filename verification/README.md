# Verified model of the API proxy's provisioning, projection and release logic

A Dafny model of five parts of the repository and proofs about them. Each part keeps the branches, constants
and error cases of the code it models.

1. **Provisioning executor** (`auth_service.py`). `Provisioning.dfy` has the planner, `Cognito.dfy` the operations
   as API calls on a directory of pools, clients and domains, `Executor.dfy` the step system: any number of workers
   run one plan against one state table, interleaved at every read and write of the table and every change of the
   directory, crash anywhere, lose answers and meet other people's changes. `ExecutorInvariant`, `ExecutorCalls` and
   `ExecutorSafety` prove the invariant, `ExecutorOrder` what final puts that are never half-acknowledged add to it,
   `ExecutorTheorems` the safety results, `ExecutorConvergence` and `ExecutorNecessity` when a plan can be completed,
   `ExecutorResume` that resuming equals running through, `ExecutorAssumptions` that no part of the assumptions can
   be dropped. `ApplyLoop.dfy` is the executor's own loop as a class, proved to take only steps of the system;
   `AuthState.dfy` has the reader, the paged look-ups and the group loop.
2. **Response projection and URL templates** (`lambda_function.py`). `Projection.dfy` is the declarative
   projection, `PathMerge.dfy` the in-place merge on a heap of dictionaries and lists that may be shared with the
   response. `PercentEncoding.dfy` is UTF-8 and percent-encoding, `UrlTemplate.dfy` the repeated replacement,
   `UrlSubstitution.dfy` and `UrlTheorems.dfy` when it is a simultaneous one, `UrlInjectivity.dfy` when a URL
   tells its inputs apart.
3. **Retained routes and first provisioning** (`tools/thn_runtime_routes.py`, `tools/thn_first_provisioning.py`).
   `Templates.dfy` has templates as JSON values and the resource-level difference of two of them, `Routes.dfy` one
   transition, `RouteRuns.dfy` runs of any length, `RouteInventory.dfy` the physical resources behind them,
   `ChangeReview.dfy` the change-set review, `FirstProvisioning.dfy` the first composition, `Examples.dfy` concrete
   templates that meet their conditions.
4. **Sealed production review** (`tools/thn_production_release.py`). `Simulation.dfy` is the normal form of
   unordered evidence, `ChangeInventory.dfy` the gate over resource changes, `ReviewRecord.dfy` seal, verification
   and execution.
5. **Archive inventory and code pointers** (`tools/aws_live_snapshot.py`): `ZipInventory.dfy` and `CodePointer.dfy`.

`Text.dfy`, `Json.dfy` and `Sorting.dfy` hold what several parts share.

## What the executor theorems assume

`Executor.Timely` is the assumption on every step of a run: the in-progress put lands before the lease it writes has
run out or is rejected by its condition, and time does not pass the lease of a worker that still holds an operation
(the worker has written its final status or died). Failures and crashes at any other point, lost answers of Cognito
calls, half-acknowledged puts of the final status, takeovers of expired locks and other people's changes are all
allowed; other people leave the resources the plan names alone, a new resource gets an id nobody has, and all workers
read one clock.

Under this alone no operation has two holders, there is never a second pool or client, the effective record is always
that of the plan's own pool and client and never changes, it is the one an uninterrupted run writes, and a plan whose
leases have run out can be completed exactly when what its unfinished operations need is there.

`Executor.Acknowledged` says in addition that no put of a final status is half-acknowledged. The order of successes and
a single worker at a time assume it. A recorded success is permanent exactly when no worker is about to give its
operation up (`SuccessIsPermanentIff`); after acknowledged puts none is.

Each lemma of `ExecutorAssumptions` gives a run with one single step outside the two assumptions, of the kind it is
about. For every plan with an operation two workers execute one operation when time passes a holder's lease, when a lock
put lands after its lease, or when one fails unexpectedly; the first also makes two pools in every plan that has to make
its pool. For every plan whose pool exists or is to be made a half-acknowledged success is overwritten and, if there is a
second operation, two workers hold operations at once and the order of successes is broken.

## Where the code does less than its purpose suggests

The model follows the code; each of these is a lemma, and the exact condition under which the purpose is met is proved.

- `UrlTheorems.StrayBracesBreakIt`: a brace that belongs to no placeholder can close around a value and form a new one,
  which a later replacement fills or which stays unresolved. `SimultaneousIff` says for which inputs of which templates
  repeated replacement is the simultaneous substitution, `AlwaysSimultaneousIff` which templates are safe for every input.
- `UrlInjectivity.MovingGapIsAmbiguous`, `TrapsConfuseInputs`: a URL need not tell its input. `UrlDeterminesIff`: among
  inputs that close no trap it does exactly when no text between two placeholders can move, that is, has a period shorter
  than the longest value allowed; in templates no longer than that limit this means a delimiter between any two
  placeholders (`ShortUrlDeterminesIff`).
- `ExecutorNecessity.CompletesIffProvided`: an undisturbed worker does not complete every plan. It does exactly when the
  hosted UI host is there for the domain, the pool the profile names for the pool, and every group that is listed twice
  for the groups, as far as these operations have not succeeded yet. `AuthState.GroupDirectory.EnsureUserGroups`: a
  missing group that is listed twice makes the operation fail; it has been created then, so each retry meets fewer.
- `ChangeInventory.MistypedRemovalPasses`: a removal is accepted by the type the change announces, which is never
  compared with the old template, and before the scope is looked at. `LostAreVersionsIff` and `OutsideUntouchedIff`
  say exactly when only Lambda versions are lost and when everything outside the families is untouched.
- `ChangeInventory.MislabelledAdditionPasses`: a new stateful resource announced as `Modify` is not asked for its
  retention policies. `NewStateIsSafeIff` says exactly when all new state is retained and protected.
- `FirstProvisioning.RecaptureExactly`: the final check of the composition can fail in one way only, when the
  translated version resource already has the name of the new deployment.
- `CodePointer.ReadsBackIff`, `ComposeTwiceIff`: the pointer writer does not check its package; what it writes can be
  read back, and written again, exactly when the package's texts are valid.

## Model

| member | source | states |
|---|---|---|
| Provisioning.ProvisioningOperations | auth_service.py:2980-3139 | the planner lists exactly the wanted operations of a status, claim, MFA mode and provider list, each once, in order, each with exactly its dependencies and its expected status |
| Provisioning.ListIsUnique | auth_service.py:2980-3139 | a plan has only one such list, so the contract determines the planner |
| Provisioning.OperationsAreUnique | auth_service.py:2980-3139 | the same for the operations with their dependencies: two lists that meet the contract are equal |
| Provisioning.DependenciesComeEarlier | auth_service.py:3006-3139 | every `dependsOn` of an operation names an earlier one, and finalize depends on all others |
| Provisioning.RequiredOutputsComeEarlier | auth_service.py:2366-2370 | every output an operation requires belongs to an earlier operation of the list |
| Provisioning.RequiredOutputsAreStored | auth_service.py:2338-2363 | the sanitizer never drops a key that a later operation requires |
| Provisioning.SanitizeIdempotent | auth_service.py:2338-2363 | sanitizing stored outputs again changes nothing |
| Executor.StepStaysPlaced | auth_service.py:1543-1604 | no step of the system leaves a worker outside the operation list, so an enabled step can always be taken |
| ExecutorCalls.UserPoolCall | auth_service.py:1689-1741 | reconciling or creating the pool keeps at most one pool of the planned name, and returns the plan's own pool |
| ExecutorCalls.PublicClientCall | auth_service.py:1845-1878 | reconciling or creating the client keeps at most one planned client, in the plan's pool and without a secret, and returns it |
| ExecutorCalls.HostedUiDomainCall | auth_service.py:1825-1842 | the planned domain belongs to the plan's pool or the operation raises |
| ExecutorCalls.EnvironmentAttributeCall | auth_service.py:1760-1781 | adding the claim attribute keeps every planned identity |
| ExecutorCalls.MfaConfigCall | auth_service.py:1807-1822 | setting the MFA configuration keeps every planned identity |
| ExecutorCalls.UserGroupsCall | auth_service.py:1881-1895 | every step of the group loop keeps every planned identity |
| ExecutorCalls.SocialProvidersCall | auth_service.py:1898-1943 | every step of the provider loop and the client update at its end keep every planned identity |
| ExecutorCalls.FinalizeCall | auth_service.py:1946-1957 | the activation record is that of the plan's own pool, client and domain |
| ExecutorCalls.HolderCall | auth_service.py:1662-1686 | any single call of any holder keeps the plan's resources single, loses none, leaves other operations' resources alone, and reports only the plan's own |
| ExecutorSafety.LocksKeep | auth_service.py:2067-2084 | the conditional put never displaces a live holder or a success and admits no second holder |
| ExecutorSafety.CommitsKeep | auth_service.py:1570-1571 | the succeeded write, acknowledged or not, records the plan's own resources, sanitized, and keeps the invariant |
| ExecutorSafety.AbortsKeep | auth_service.py:1573-1581 | the failed write of a holder keeps the invariant, also when its success has landed unknown to it |
| ExecutorSafety.CarriedActivation | auth_service.py:2138-2161 | fresh or reloaded outputs yield the effective record of the plan's own pool and client |
| ExecutorSafety.StepKeeps | auth_service.py:1543-1604 | every timely step, of the program, of a failure or of the world, keeps the invariant |
| ExecutorSafety.StepKeepsResources | auth_service.py:1662-1686 | no step loses a pool or client of the plan |
| ExecutorOrder.StepKeepsOrder | auth_service.py:1554-1594 | without half-acknowledged final puts no step changes a recorded success or records an operation before those in front of it have succeeded |
| ExecutorTheorems.OneHolderPerOperation | auth_service.py:2067-2084 | in every state reached by a timely run no operation has two holders, every holder's lease is live, and the table names the one that executes |
| ExecutorTheorems.OneWorkerExecutes | auth_service.py:1554-1594 | with acknowledged final puts at most one worker executes anything, and it holds the live lease the table records |
| ExecutorTheorems.AtMostOnePoolAndClient | auth_service.py:2425-2479 | all timely runs of one plan together leave at most one pool of the planned name and at most one client of the planned name in the whole directory, in the plan's pool |
| ExecutorTheorems.RecordedAreOurs | auth_service.py:2338-2363 | the pool and the client that succeeded operations recorded exist and are the plan's own |
| ExecutorTheorems.SuccessChangesIff | auth_service.py:2040-2084 | in every state of every timely run the only step that changes a recorded success is the failure put of a worker that gives that operation up |
| ExecutorTheorems.SuccessIsPermanentIff | auth_service.py:1570-1581 | in every such state a recorded success survives all timely continuations exactly when no worker is about to give its operation up |
| ExecutorTheorems.SuccessIsPermanent | auth_service.py:2067-2084 | with acknowledged final puts so far none is, so a recorded success stays, with its outputs, whatever timely steps follow |
| ExecutorTheorems.SucceededIsPrefix | auth_service.py:1554-1594 | with acknowledged final puts the succeeded operations are always a prefix of the list |
| ExecutorTheorems.EffectiveIsOurs | auth_service.py:2138-2161 | after any timely run an effective record is that of the plan's own pool and client, both of which exist |
| ExecutorTheorems.EffectiveIsRecorded | auth_service.py:1543-1604 | with acknowledged final puts an effective record exists only when all operations succeeded, and is the recorded one |
| ExecutorTheorems.EffectiveIsStable | auth_service.py:2138-2161 | once written, every later activation by any worker in any timely run writes the same record |
| ExecutorConvergence.CallGoes | auth_service.py:1662-1686 | no call of an undisturbed worker whose operation is provided for is refused, and loops stay in step with the directory |
| ExecutorConvergence.UndisturbedRunApplies | auth_service.py:1554-1604 | whatever undisturbed steps bring the worker to its end, boundedly many calls, it ends applied with everything succeeded |
| ExecutorConvergence.Converges | auth_service.py:1554-1604 | from every state reached by a timely run whose leases have expired, one undisturbed worker reaches the end, applied, if unfinished operations are provided for |
| ExecutorNecessity.AppliesOnlyIfProvided | auth_service.py:1662-1686 | a worker that nobody disturbs ends applied only if every unfinished operation had what it needs |
| ExecutorNecessity.CompletesIffProvided | auth_service.py:1543-1604 | both directions: the plan can be completed from such a state exactly when its unfinished operations are provided for |
| ExecutorResume.ResumeEqualsUninterrupted | auth_service.py:1543-1604 | whatever effective record any timely history leaves, one uninterrupted worker alone, from any initial state in which the two ids are free, ends with that very record |
| ExecutorAssumptions.OutlivingALeaseAdmitsASecondHolder | auth_service.py:2067-2078 | every plan with an operation has a run in which two workers execute it and the only step outside the assumptions is time passing a holder's lease |
| ExecutorAssumptions.OutlivingALeaseMakesTwoPools | auth_service.py:2067-2078 | and with the same single lapse every plan that has to make its pool has a run that makes two |
| ExecutorAssumptions.LateLockAdmitsASecondHolder | auth_service.py:2067-2078 | the same two holders when the only lapse is a lock put that lands after the lease it was computed for |
| ExecutorAssumptions.AmbiguousCommitUndoesSuccess | auth_service.py:1570-1581 | in a timely run whose only lapse is one half-acknowledged final put, the success it recorded is overwritten by a failure, for every plan whose pool exists or is to be made |
| ExecutorAssumptions.AmbiguousCommitBreaksTheOrder | auth_service.py:1570-1581 | the same lapse lets two workers hold operations at once and leaves a record behind an operation that has not succeeded |
| ExecutorAssumptions.UnexpectedLockFailureAdmitsASecondHolder | auth_service.py:1562-1581 | two workers execute one operation when the only lapse is a lock put that fails unexpectedly |
| ApplyLoop.Deployment.PutInProgress | auth_service.py:2040-2084 | the lock is granted exactly when no record, a failure or an expired lock is there, and then writes the new lease |
| ApplyLoop.Deployment.LoadExistingOperationOutputs | auth_service.py:2007-2013 | the preload merges exactly the recorded outputs of the succeeded operations, as steps of the system |
| ApplyLoop.Deployment.RunOperation | auth_service.py:1562-1581 | executing one operation and writing its final status are steps of the system |
| ApplyLoop.Deployment.Apply | auth_service.py:1543-1604 | the whole loop is a timely run of the step system, from any state, and says whether it applied |
| ApplyLoop.Deployment.ApplyUndisturbed | auth_service.py:1543-1604 | alone, after expired leases, the loop returns applied exactly when unfinished operations are provided for, and then every operation has succeeded |
| ApplyLoop.FreshIdsCanBeGiven | auth_service.py:1701-1741 | what the loop's results ask of the ids of new resources can be met |
| AuthState.ReaderSeesOurResources | auth_service.py:2087-2114 | after any timely run the reader overlays the plan's own pool, client, issuer and domain for the matching hash and returns the profile unchanged for another |
| AuthState.ReaderSeesRecordedResources | auth_service.py:2087-2114 | with acknowledged final puts these are the recorded ones of succeeded operations |
| AuthState.FindByName | auth_service.py:2462-2479 | a name search over any paging of a listing answers for the whole listing |
| AuthState.FindUserPool | auth_service.py:2425-2459 | the same for pools, with the check of the four tags of a single match |
| AuthState.SearchForPool | auth_service.py:2425-2459 | over any paging of the directory's pools the loop decides what the executor's one search step decides |
| AuthState.GroupDirectory.EnsureUserGroups | auth_service.py:1881-1895 | creates the missing groups in order up to the first missing one that comes again; raises exactly when there is such a one, and then fewer are left |
| Projection.ProjectIdempotent | lambda_function.py:614-661 | projecting twice by the same paths is projecting once |
| Projection.ProjectMonotone | lambda_function.py:614-661 | more paths show at least as much |
| Projection.ProjectWithinSource | lambda_function.py:614-661 | nothing is shown that is not in the source |
| PathMerge.RepIsProjection | lambda_function.py:629-661 | a merged target reads as the declarative projection although it shares nodes with the source |
| PathMerge.CopyAllowedPath | lambda_function.py:629-661 | one merge adds exactly one path to what the target represents, and leaves every source node as it was, aliased or not |
| PathMerge.CopyIntoDict | lambda_function.py:656-661 | the same through a nested dictionary, new, merged before or shared |
| PathMerge.CopyIntoList | lambda_function.py:643-654 | the same through a list, new, merged before or shared |
| PathMerge.CopyItems | lambda_function.py:649-653 | the same item by item |
| PathMerge.NewShell | lambda_function.py:647-648 | the shell of a list represents nothing yet |
| PathMerge.MergeAll | lambda_function.py:620-623 | after all allowed fields the tree is the projection by their set |
| PathMerge.FilterResponse | lambda_function.py:614-626 | the filtered response is the declarative projection, and the response is unchanged node by node |
| PathMerge.OrderAndDuplicatesDoNotMatter | lambda_function.py:620-623 | the order and the duplication of allowed fields do not matter |
| PathMerge.FilteringTwice | lambda_function.py:614-626 | without `singleItem` filtering twice is filtering once |
| PercentEncoding.QuoteRoundTrip | lambda_function.py:361-361 | percent-decoding an encoded value gives back the value, for every string |
| PercentEncoding.QuoteAlphabet | lambda_function.py:361-361 | an encoded value holds only unreserved characters and percent signs |
| UrlTemplate.EncodeTemplateValue | lambda_function.py:335-361 | the first reason why the field cannot be used, or its encoded trimmed text, which is not empty, holds no brace or delimiter and decodes to the trimmed text |
| UrlTemplate.ReplaceInTurn | lambda_function.py:333-346 | the loop stops at the first unusable placeholder, or replaces each in order and records all names |
| UrlTemplate.ResolveUrlTemplate | lambda_function.py:322-348 | the loop, the check for unresolved fields and the URL check together |
| UrlTheorems.SimultaneousIff | lambda_function.py:322-348 | for every usable input: repeated replacement is simultaneous substitution, with nothing unresolved, exactly when no stray braces close around literal name characters and values that could pass for a name |
| UrlTheorems.AlwaysSimultaneousIff | lambda_function.py:322-348 | a template is so for every usable input exactly when no literal `{` is followed by name characters and placeholders only and then `}` |
| UrlTheorems.StrayBracesBreakIt | lambda_function.py:333-342 | `{{a}}{a}` with the value `a` resolves to `aa`, where simultaneous substitution leaves a placeholder |
| UrlInjectivity.UrlDeterminesValues | lambda_function.py:333-342 | if a delimiter stands between any two placeholders, the URL determines the trimmed text of every field used, for all inputs that close no trap |
| UrlInjectivity.TrapsConfuseInputs | lambda_function.py:333-342 | where a trap closes it does not: `{{a}}/{b}/{c}` resolves to one URL for two values of `a` |
| UrlInjectivity.UrlDeterminesWithin | lambda_function.py:333-361 | the same if no gap between placeholders can move within the length limit of values |
| UrlInjectivity.MovingGapIsAmbiguous | lambda_function.py:333-361 | if one can, one URL resolves from two inputs within the limit that differ |
| UrlInjectivity.UrlDeterminesIff | lambda_function.py:333-361 | both directions, for every length limit: the URL tells the inputs that close no trap apart exactly when no gap can move, in templates that name each field once and have no literal percent sign |
| UrlInjectivity.ShortUrlDeterminesIff | lambda_function.py:333-361 | if such a template is no longer than the limit: exactly when a delimiter stands between any two placeholders |
| UrlTemplate.SplitInput | lambda_function.py:220-238 | each accepted field goes to exactly one of URL and forwarded input; the least unknown field is refused |
| Routes.Compose | tools/thn_runtime_routes.py:125-149 | a transition is refused for the first of its reasons, or edits route, stage pointer and one new deployment |
| Routes.ComposedIsNative | tools/thn_runtime_routes.py:61-102 | a native template stays native through a transition |
| Routes.Strip | tools/thn_runtime_routes.py:211-226 | the loop that deletes approved deployments computes the stripped template, and refuses exactly when some other resource was added |
| Routes.StrippedKept | tools/thn_runtime_routes.py:211-226 | a transition leaves what the invariant digests unchanged |
| Routes.ComposedDiff | tools/thn_runtime_routes.py:139-149 | the resource-level difference is exactly the API body, the stage's deployment id and one added deployment |
| RouteRuns.RunLaws | tools/thn_runtime_routes.py:315-365 | everything a run of any length keeps, at its end |
| RouteRuns.EveryTemplateOfARun | tools/thn_runtime_routes.py:211-226 | every template of a run is native, strips to the same, and its stage points to the newest deployment |
| RouteRuns.OperationsAlternate | tools/thn_runtime_routes.py:133-136 | accepted operations strictly alternate |
| RouteRuns.ExactlyAsManyDeployments | tools/thn_runtime_routes.py:145-149 | n transitions add exactly n retained deployments, remove none and leave every other resource |
| RouteRuns.ReopenRestores | tools/thn_runtime_routes.py:117-122 | every reopening restores exactly the captured API resource |
| RouteRuns.ApiBesidesRoute | tools/thn_runtime_routes.py:139-144 | apart from the route no transition changes the API |
| RouteRuns.StageBesidesPointer | tools/thn_runtime_routes.py:139-149 | apart from its deployment pointer no transition changes the stage |
| RouteRuns.AcceptedIff | tools/thn_runtime_routes.py:125-138 | a run that starts open is never stuck: the next transition is refused only for its token, its direction or its name |
| RouteInventory.RecordValidatesThroughout | tools/thn_runtime_routes.py:252-273 | the captured record validates against every observation of every run, so no transition is refused for deployments of earlier ones |
| RouteInventory.OnePhysicalDeploymentEach | tools/thn_runtime_routes.py:356-361 | every transition adds exactly one physical resource, an API deployment |
| RouteInventory.PhysicalIdsAreKept | tools/thn_runtime_routes.py:356-361 | the physical id of a transition's deployment stays the same for the rest of the run |
| ChangeReview.ReadParameters | tools/aws_live_snapshot.py:109-118 | a parameter list is read exactly when it is visible, without repetition and of the test environment, and the result says what the list says |
| ChangeReview.Review | tools/thn_runtime_routes.py:276-312 | accepted exactly: an available, unnested update of this stack under its name, with the observed parameters, whose changes are the allowed difference |
| ChangeReview.ReviewChanges | tools/thn_runtime_routes.py:286-312 | the loop accepts exactly the lists that are, entry for entry, the allowed difference, in place |
| ChangeReview.ChecksAreExact | tools/thn_runtime_routes.py:286-312 | length and distinctness force a bijection with the allowed difference, and the other way round |
| ChangeReview.AcceptedIsExpected | tools/thn_runtime_routes.py:291-312 | one entry passes its checks exactly when it is in place and announces an allowed difference |
| ChangeReview.TransitionDiff | tools/thn_runtime_routes.py:276-312 | the allowed difference is the difference between a template and its composition |
| FirstProvisioning.CopyParameters | tools/thn_first_provisioning.py:116-118 | all six parameters are copied, or one is not a string parameter |
| FirstProvisioning.ComposeFirst | tools/thn_first_provisioning.py:94-123 | the first composition is refused for the first of its reasons, or returns the extended template and the added names |
| FirstProvisioning.ConservativeExtension | tools/thn_first_provisioning.py:105-120 | erasing what was added and restoring the stage pointer gives back the baseline, up to empty `Rules` and `Conditions` |
| FirstProvisioning.AddedResourcesAreRetained | tools/thn_first_provisioning.py:100-113 | everything added is retained both ways, it is seven resources unless names clash, and all others are unchanged |
| FirstProvisioning.RecaptureExactly | tools/thn_first_provisioning.py:121-121 | the final capture succeeds exactly when the deployment did not take the version's name |
| FirstProvisioning.FirstDiff | tools/thn_first_provisioning.py:211-236 | the additions plus two modifications that the review allows are the difference the composition makes |
| FirstProvisioning.BaselineSurvivesRuns | tools/thn_first_provisioning.py:94-123 | after the composition and any run of transitions every baseline resource is unchanged, the API but for the route and the stage but for its pointer |
| Examples.CapturedTemplateExists | tools/thn_runtime_routes.py:61-122 | a native template with open routes exists: what the transition theorems require can be met |
| Examples.ReadyInputsExist | tools/thn_first_provisioning.py:38-106 | a baseline, a source and a translation that pass the checks of the first composition exist |
| Simulation.StableSimulationEvaluations | tools/thn_production_release.py:94-105 | the loops compute the normal form |
| Simulation.NormalFormIff | tools/thn_production_release.py:94-105 | two evaluations normalize equally if and only if they are equal up to the order of rows, results, matched statements and missing values |
| Simulation.NormalIdempotent | tools/thn_production_release.py:94-105 | normalizing twice is normalizing once |
| ChangeInventory.ReviewInventory | tools/thn_production_release.py:159-202 | accepts exactly when every change passes and no resource is named twice, and returns the sorted list |
| ChangeInventory.OrderDoesNotMatter | tools/thn_production_release.py:159-202 | verdict and returned list are the same for every order of the changes |
| ChangeInventory.OnlyRetainedVersionsAreLost | tools/thn_production_release.py:169-173 | applying an accepted list loses only retained resources named by the removal of a Lambda version |
| ChangeInventory.LostAreVersionsIff | tools/thn_production_release.py:169-173 | what is lost are Lambda versions exactly when removals announce the right types |
| ChangeInventory.AddedStateIsRetained | tools/thn_production_release.py:188-201 | every stateful resource announced as added carries both Retain policies and its own protection |
| ChangeInventory.OutsideUntouchedIff | tools/thn_production_release.py:181-187 | in the private scopes everything outside the families is untouched exactly when no removal names something outside |
| ChangeInventory.MistypedRemovalPasses | tools/thn_production_release.py:169-173 | a retained table that a removal calls a version is accepted, even in a private scope |
| ChangeInventory.NewStateIsSafeIff | tools/thn_production_release.py:188-201 | all stateful resources the stack gains are retained both ways and protected exactly when every edit that brings one in is announced as an addition or needs no check |
| ChangeInventory.HonestAdditionsAreSafe | tools/thn_production_release.py:188-201 | so they are whenever every edit of a resource the old template lacks is announced as an addition |
| ChangeInventory.MislabelledAdditionPasses | tools/thn_production_release.py:188-192 | a new table announced as modified is accepted without policies |
| ReviewRecord.VerifiesExactlyForADay | tools/thn_production_release.py:116-157 | a record verifies against its digest exactly from its creation for one day and only if its inputs were well formed |
| ReviewRecord.AlteredRecordsAreRefused | tools/thn_production_release.py:133-141 | whatever verifies against the approved digest is the approved record, or shows a hash collision with it |
| ReviewRecord.InventoryForgetsOrder | tools/thn_production_release.py:110-130 | the sealed inventories are equal exactly for equal multisets of changes |
| ReviewRecord.Stack.ExecuteRetained | tools/thn_production_release.py:294-317 | the stack is changed once if every check passes, and otherwise not at all |
| ReviewRecord.ReachesTheMutationIff | tools/thn_production_release.py:294-317 | the mutation is reached exactly within the day, with everything as sealed, in any order of the changes, unless hashes collide |
| ReviewRecord.OnlyTheSealedRecordExecutes | tools/thn_production_release.py:294-317 | for an arbitrary record, service and source: the mutation is reached exactly with the sealed ones and everything in place, unless hashes collide |
| ZipInventory.Inventory | tools/aws_live_snapshot.py:207-235 | the loop accepts exactly when the whole archive is acceptable, so the running check is the final one |
| ZipInventory.OrderDoesNotMatter | tools/aws_live_snapshot.py:207-235 | verdict and list are the same for every order of the members |
| ZipInventory.ListIsSafe | tools/aws_live_snapshot.py:216-235 | the list is sorted, within the cap, of relative paths without empty, `.` or `..` segments, distinct up to letter case |
| CodePointer.Compose | tools/aws_live_snapshot.py:338-347 | the three functions are repointed, or one old pointer cannot be read |
| CodePointer.ReadsBackIff | tools/aws_live_snapshot.py:121-142 | in both template shapes the reader returns what the writer wrote, exactly for valid package texts |
| CodePointer.ComposedReadsBack | tools/aws_live_snapshot.py:121-142 | after a composition every function reads back the package |
| CodePointer.ComposeTwiceIff | tools/aws_live_snapshot.py:338-347 | composing again changes nothing, and succeeds exactly for valid package texts |
| CodePointer.NothingElseChanges | tools/aws_live_snapshot.py:338-347 | a composition changes one property of each function and nothing else |

## Left out

- boto3, urllib, S3, SSM, Secrets Manager, subprocess calls and waiters: I/O; only the state table, the directory and observed values are kept.
- SHA-256, `canonical`, Python's `str`, the URL checks of `urlparse` and `urlsplit`, and the YAML parser: parameters. `canonical` is taken to tell JSON values apart; nothing of the kind is assumed of SHA-256, so results about digests allow for a collision.
- The SAM translator: the translated template is a parameter of the first composition, of which only what the code checks is used.
- Social provider credentials: the preflight and the provider details carry no state of the protocol; a failing preflight is a worker that crashes before its first operation.
- Runs of two different plans for one profile: their operation keys differ, so the lease does not order them.
- Response bodies and previews of the executor: they report what the loop did and change nothing.
- Reads of Cognito that an operation makes in a row are one step with the read or write they end in: the pool's pages, description and tags; the client's pages, description and update; a provider's description and its creation or update. In between, other workers cannot touch the operation and other people's changes leave its resources alone, so what is read cannot change.
- Clocks that differ between workers: all of them read one clock.
- RouteRuns.RunLaws: does not model the size limit of the template, the second observation before a write and the comparison of the exported API, because these only compare with observed state; the laws hold for every run that the template checks accept, so for every run that these accept as well.
- RouteInventory.RecordValidatesThroughout: does not model the record's digests of parameters, stack settings, functions, the retained version, stage settings and other paths, because no composed template touches what they are taken of and the check after a transition compares them with the same values.
- UrlInjectivity.UrlDeterminesIff: does not cover templates that repeat a placeholder or hold a literal percent sign, where the other occurrence or the two digits after the sign can settle what the gap leaves open; `UrlDeterminesValues` covers them in the one direction, and `UrlDeterminesWithin` covers repeated placeholders.
- Lone surrogates in strings, JSON floats, and Python's equality of `True` with `1`: Dafny's characters are Unicode scalar values and its JSON numbers integers.
- A field of simulation evidence that is not a list where a list belongs: Python raises or sorts its keys; the model leaves it as it is.
- A review record whose set of fields is not the closed one: it is refused by the first check and represented only as `Malformed`.
- `select_parameters`, `validate_dedicated_api_native`, `cleanup_retained`, record loading and the command lines: easier rules of the same kind, or plumbing.
- Key order of Python dictionaries: no modelled result depends on it.
- PathMerge.CopyItems: the branch that replaces a list entry that is not a dictionary is shown to be unreachable on JSON input.
