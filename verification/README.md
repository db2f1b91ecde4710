# Models of the AIPass agent

Dafny models of the parts of the AIPass agent and browser extension that keep
long-lived state: logins, proxy configuration, logs, queues, imports and prices.
Each module models one source file or one component of it.  Classes and methods
follow the source's own steps and are proved equal to specification functions; the
lemmas are about those functions, over every input or every run.

Failures are part of the inputs.  A call that can fail has a parameter that says how
it fails, among them the awkward ways: a write that commits and still reports an
error, a reply that is lost, a rename that fails half way through a loop.  A theorem
about runs therefore covers every choice of failures at every step.

| file | what it models |
|---|---|
| `AccountRotation.dfy` | staging, compare-and-set and replay of a rotated provider login |
| `WebsocketCapability.dfy` | publishing that a provider rejects websockets |
| `ProxyConfig.dfy` | the proxy configuration in memory, on disk and in the listener |
| `LogRotation.dfy`, `RepeatLog.dfy` | size-bounded log files and the suppression of repeats |
| `CloudKit.dfy` | the task queue between requesters and the polling shell |
| `VaultPaths.dfy` | the canonical vault directory and the socket namespace |
| `NativeClient.dfy` | requests, retries and reconnects of the native messaging client |
| `ImportTask.dfy`, `ImportRegistry.dfy` | one subscription import, and the registry of imports |
| `Pricing.dfy` | price groups and assignments under gateway synchronisation |
| `ClaudeBridge.dfy`, `ClaudePool.dfy` | tool calls of a Claude process, and the pool of processes |
| `SyncWatch.dfy` | debouncing, back-off and the scheduler of vault synchronisation |
| `Printers.dfy` | quoting for shells, unit files and property lists |
| `Sets.dfy`, `Wrappers.dfy` | shared helpers |

`dafny verify dfyconfig.toml` checks the whole project.

## Findings

Several promises hold only under a condition, which the lemmas state together with a
concrete input that shows the other side.

- A staged login survives while operations of an account are serialised.  `reset`
  (community.rs:568) and the model listing load an account without its lock, and a
  login can then be lost (`AccountRotation.UnlockedLoadLosesLogin`): in any run exactly
  by considering another copy of the record, by staging another rotation or by settling
  a write (`AccountRotation.LosesExactly`).
- A revocation does not stop a write that has been admitted: `update` releases the
  recovery lock before its request (community.rs:224-253), so a login staged before the
  revocation can reach the vault after it (`AccountRotation.RevokedLoadStillWrites`),
  exactly if its request was still to be written and the record is still the one it was
  computed from (`AccountRotation.LateWritesExactly`).
- Generation and revision alone do not name a record: rebinding a login may start the
  revisions over.  With the binding they do.
- `set_config` has no compensating save when its first save reports an error; if the
  file was replaced by then, disk and memory part (`ProxyConfig.SetConfigRollsBack`
  says exactly when).
- Two operations save the configuration after their own load failed, and so write blank
  route tokens after the session was locked: a credential refresh with a running
  listener, and the removal of an entry or key (handlers.rs:1386-1390), listener or not
  (`ProxyConfig.FailedRefreshSavesBlanks`, `ProxyConfig.FailedRemovalSavesBlanks`).  No
  other step does (`ProxyConfig.StepKeepsTokensExactly`).
- A rename that fails in the middle of a rotation leaves a gap between the rotated
  files, exactly if the oldest file can be removed and the highest failing rename goes
  onto a slot in use below the oldest (`LogRotation.GapExactlyWhenCutShort`); what is
  kept is still a suffix of what was written.
- Overlapping exchanges can displace an active task (`CloudKit.OverlapDisplaces`).
- A vault path that runs through a dangling link, or through `..` back to an existing
  link, can change its canonical directory once directories are created
  (`VaultPaths.KeptExactly` and, for paths with `..`, `VaultPaths.HeldExactly`).  Through
  `..` the canonical directory need not be its own canonical directory
  (`VaultPaths.CanonicalAgainExactly`).
- An import commits an account twice if its first write fails before it is noted
  (subscription_import/persist.rs:78-105) and leaves the entry at the revision already
  known (`ImportTask.UnnotedWriteIsRepeated`); any other unnoted write is refused as a
  conflict from then on (`ImportTask.CommittedOnce`, `ImportTask.CommittedAgainExactly`).
- A stored price version in the future makes the synchronisation repeat itself, exactly
  if its group is offered, not manual and not already at the offered rules
  (`Pricing.SyncAgainExactly`, `Pricing.FutureVersionIsReapplied`).
- The delay after a first failed synchronisation is shorter than the one after a success
  unless authorization failed or the mode is WebDAV
  (`SyncWatch.FirstFailureMayBeSooner`).
- A log reading ahead of the others evicts a tracked key early, exactly if it brings a
  new key to a full table (`RepeatLog.ForgottenExactly`).

## Model

| member | source | states |
|---|---|---|
| AccountRotation.CommunityBridge.Candidate | crates/aipass-agent/src/community.rs:110-124 | a staged login is offered only while the record is the one it was computed from; otherwise it is dropped |
| AccountRotation.RevokedOperationsStayOut | crates/aipass-agent/src/community/backend.rs:178-185 | after a revocation no operation that entered before it has a frame admitted, in any interleaving, until 2^64 revocations bring its epoch back |
| AccountRotation.StagedSinceRevocation | crates/aipass-agent/src/community/backend.rs:182-185 | whatever is staged at any time after a revocation was staged after it, by an operation admitted at the epoch of that moment |
| AccountRotation.UnderWayBefore | crates/aipass-agent/src/community.rs:224-256 | an update of the ended epoch that is past its admission after a revocation was so at the revocation, a load's write-back included |
| AccountRotation.LateWritesExactly | crates/aipass-agent/src/community.rs:224-256 | what such an update can still write after a revocation, at any later time and in any interleaving, is exactly what it could have written at that moment |
| AccountRotation.SendWritesExactly | crates/aipass-agent/src/community.rs:244-253 | a request changes the record exactly if it arrives while the record is the one its operation read |
| AccountRotation.RevokedLoadStillWrites | crates/aipass-agent/src/community.rs:224-253 | a load's write-back that lands after the revocation |
| AccountRotation.CommunityBridge.Write | crates/aipass-agent/src/community.rs:244-253 | the vault's compare-and-set; the reply may be lost after the write |
| AccountRotation.CommunityBridge.Update | crates/aipass-agent/src/community.rs:206-276 | success means the vault holds the returned copy; on failure nothing was written or the written login is still staged; other accounts are untouched |
| AccountRotation.UpdateIsUninterrupted | crates/aipass-agent/src/community.rs:206-276 | staging, sending, reading back and settling without interruption is one such call: same record, same staged copy, same outcome |
| AccountRotation.CommunityBridge.Load | crates/aipass-agent/src/community.rs:173-205 | a successful load returns what the vault holds, with a staged login of that very record written back; a failing one leaves record and staged copy as the failing read or write-back did |
| AccountRotation.LoadIsUninterrupted | crates/aipass-agent/src/community.rs:173-205 | reading, considering and writing back without interruption is one such load |
| AccountRotation.RunIsSound | crates/aipass-agent/src/community.rs:173-276 | under every interleaving of operations, edits and revocations, copies are records once held and revisions name records |
| AccountRotation.CommitReplacesWhatWasRead | crates/aipass-agent/src/community.rs:206-256 | a write that commits replaces exactly the record its operation read and raises the revision by one: no newer edit is overwritten |
| AccountRotation.CopiesAreHeld | crates/aipass-agent/src/community.rs:224-276 | a copy reported as written was really held, also when success was inferred by reading back |
| AccountRotation.RevisionsNameRecords | crates/aipass-agent/src/community.rs:224-256 | within one authorization no two different records share a revision |
| AccountRotation.GenerationAndRevisionAreNotEnough | crates/aipass-agent/src/community.rs:110-124 | without the binding a revision can name two records |
| AccountRotation.LockedRunIsSafe | crates/aipass-agent/src/community.rs:159-276 | the invariant of serialised runs: every accepted rotation is staged or superseded at every step of an operation |
| AccountRotation.RotationSurvives | crates/aipass-agent/src/community.rs:206-276 | over every serialised run with lost requests, replies and read-backs, an accepted rotation is still staged or the record it was computed from is gone |
| AccountRotation.NextLoadWritesBack | crates/aipass-agent/src/community.rs:173-195 | after such a run the next load that reaches the vault writes the rotation back and returns it, acknowledged or not |
| AccountRotation.LosesExactly | crates/aipass-agent/src/community.rs:110-276 | in every state of every run, locked or not, a step loses a staged login that still matters exactly if it considers another copy, stages another rotation or settles a write |
| AccountRotation.UnlockedLoadLosesLogin | crates/aipass-agent/src/community.rs:560-568 | without the account lock a login can be lost |
| WebsocketCapability.ProxyService.PersistWsCapabilities | crates/aipass-agent/src/proxy_service.rs:99-197 | one call, step by step, equals the specification function under every combination of failures |
| WebsocketCapability.UnpublishedIsQueued | crates/aipass-agent/src/proxy_service.rs:99-197 | a provider turned off here, still off and not yet both loaded and reported is always queued for a refresh, also when its write committed with an error |
| WebsocketCapability.ReportedAfterLoading | crates/aipass-agent/src/proxy_service.rs:99-197 | a reported change leaves the running snapshot in agreement with the vault |
| WebsocketCapability.FailureKeepsEvents | crates/aipass-agent/src/proxy_service.rs:125-196 | a failing call loses no observation that matches the configuration and was not withdrawn |
| WebsocketCapability.QueueDrains | crates/aipass-agent/src/proxy_service.rs:99-197 | in any state of any run, as many calls without failures as there are queued providers, off or on again, empty the queue and leave nothing unpublished |
| WebsocketCapability.ErrorIsQueued | crates/aipass-agent/src/proxy_service.rs:150-196 | a call that turns a provider off and reports an error, committed write or failed reload, leaves it queued |
| WebsocketCapability.StaysUnpublished | crates/aipass-agent/src/proxy_service.rs:99-197 | it stays so until a call succeeds with no snapshot serving it, or somebody turns it on, deletes it or resets |
| WebsocketCapability.CommittedWithErrorIsRecovered | crates/aipass-agent/src/proxy_service.rs:99-124 | in any run a call without failures that meets it first reports it, with no snapshot serving it, whether or not its observation is still there |
| WebsocketCapability.WithdrawnAfterError | crates/aipass-agent/src/proxy_service.rs:150-175 | a run in which the observation is withdrawn after the write committed with an error |
| ProxyConfig.ProxyService.LoadConfig | crates/aipass-agent/src/proxy_service.rs:244-266 | loading fills in tokens, applies a pending stop and saves both, under every failure |
| ProxyConfig.ProxyService.SetWholeConfig | crates/aipass-agent/src/proxy_service.rs:292-319 | replacing the configuration with its compensations equals the specification function |
| ProxyConfig.ProxyService.EnableRoute | crates/aipass-agent/src/proxy_service.rs:407-451 | switching one route, with its compensations, equals the specification function |
| ProxyConfig.ProxyService.RotateRouteToken | crates/aipass-agent/src/proxy_service.rs:529-568 | rotating one token, with its compensations, equals the specification function |
| ProxyConfig.ProxyService.ReconcileMissingCredentials | crates/aipass-agent/src/proxy_service.rs:613-658 | the nested in-place filters equal the specification function |
| ProxyConfig.ProxyService.RefreshProviderCredentials | crates/aipass-agent/src/proxy_service.rs:660-783 | a refresh that fails takes the listener down and saves |
| ProxyConfig.ProxyService.RemoveProviderReferences | crates/aipass-agent/src/handlers.rs:1378-1390 | a removal of an entry or key that fails takes the listener down and saves |
| ProxyConfig.LoadAgrees | crates/aipass-agent/src/proxy_service.rs:244-266 | after a successful load the stored copy is the one in memory and no stop is pending |
| ProxyConfig.SetConfigRollsBack | crates/aipass-agent/src/proxy_service.rs:292-319 | on every error memory is as it was loaded; the stored copy is too if the configuration was invalid or the first save was refused or undone, and for a change of address or routes only then |
| ProxyConfig.ChangeRollsBack | crates/aipass-agent/src/proxy_service.rs:436-449 | the same for the operations with a compensating save |
| ProxyConfig.SetRouteEnabledRollsBack | crates/aipass-agent/src/proxy_service.rs:407-451 | a failed switch of a route leaves memory as it was loaded, and the stored copy unless the compensating save is lost |
| ProxyConfig.RotateTokenRollsBack | crates/aipass-agent/src/proxy_service.rs:529-568 | the same for a failed token rotation |
| ProxyConfig.SetConfigAgrees | crates/aipass-agent/src/proxy_service.rs:292-319 | on success memory, file and listener hold the same configuration, and a listener runs only if it is enabled with a route |
| ProxyConfig.SetRouteEnabledAgrees | crates/aipass-agent/src/proxy_service.rs:407-451 | on success exactly one route changed, by its switch alone, in all three places |
| ProxyConfig.RotateTokenAgrees | crates/aipass-agent/src/proxy_service.rs:529-568 | on success exactly one token changed, in all three places |
| ProxyConfig.StoppedIsNotRestored | crates/aipass-agent/src/proxy_service.rs:378-391 | over every run of locks, stops and failing saves, a stopped proxy is not started by a restore before an explicit enable |
| ProxyConfig.StoredTokensSurvive | crates/aipass-agent/src/proxy_service.rs:475-483 | blanked tokens are not saved over any run whose refreshes and removals do not save after a failed load |
| ProxyConfig.StepKeepsTokensExactly | crates/aipass-agent/src/proxy_service.rs:244-783 | of all operations exactly those two store a blank token, and exactly with an unreadable file, blanked memory and a last save that lands |
| ProxyConfig.RefreshKeepsTokensExactly | crates/aipass-agent/src/proxy_service.rs:774-782 | a refresh saves blank tokens exactly when a listener runs, its load fails, memory is blanked and its last save lands |
| ProxyConfig.FailedRefreshSavesBlanks | crates/aipass-agent/src/proxy_service.rs:774-782 | start, lock, failing refresh: the stored tokens are blank |
| ProxyConfig.RemovalKeepsTokensExactly | crates/aipass-agent/src/handlers.rs:1378-1390 | the removal of an entry saves blank tokens exactly when its load fails, memory is blanked and its last save lands, with a listener or without |
| ProxyConfig.FailedRemovalSavesBlanks | crates/aipass-agent/src/handlers.rs:1386-1390 | read, lock, failing removal: the stored tokens are blank |
| ProxyConfig.KeptExactly | crates/aipass-agent/src/proxy_service.rs:618-634 | exactly the targets that resolve or cannot be decided are kept |
| ProxyConfig.KeptInOrder | crates/aipass-agent/src/proxy_service.rs:618-634 | the kept targets stay in their order and as often as they were there |
| ProxyConfig.KeptAtExactly | crates/aipass-agent/src/proxy_service.rs:618-634 | the positions kept are exactly those whose target is not gone |
| ProxyConfig.ReconcilingKeepsOrder | crates/aipass-agent/src/proxy_service.rs:613-637 | routes stay in order and differ only in their targets |
| ProxyConfig.DroppedExactly | crates/aipass-agent/src/proxy_service.rs:634-636 | a route is dropped exactly when it had targets and all of them are gone |
| ProxyConfig.ReconcilingIsIdempotent | crates/aipass-agent/src/proxy_service.rs:613-641 | a second pass changes nothing and finds nothing gone |
| ProxyConfig.ReconcilingTwice | crates/aipass-agent/src/proxy_service.rs:613-641 | a pass after an earlier one that saw less gone gives what it would have given alone |
| LogRotation.LogDirectory.Rotate | crates/aipass-agent/src/logging.rs:178-192 | the descending remove and rename loop over the directory equals the specification function |
| LogRotation.LogDirectory.AppendRotating | crates/aipass-agent/src/logging.rs:162-198 | one append equals the specification function, with any call failing |
| LogRotation.LoopIsShift | crates/aipass-agent/src/logging.rs:178-192 | a completed loop is one shift by one; one cut short is a shift above the index where it stopped |
| LogRotation.RotationKeepsAllButOldest | crates/aipass-agent/src/logging.rs:178-192 | a rotation, completed or not, gives up whole the oldest file or nothing |
| LogRotation.RunKeepsSuffix | crates/aipass-agent/src/logging.rs:162-198 | over every run with every failure what is kept, oldest file to current, is a suffix of all that was written, and each append gave up nothing or the whole file then in the oldest slot |
| LogRotation.RetainingNothingNeverTrims | crates/aipass-agent/src/logging.rs:178-192 | with nothing retained the loop is empty and the live file only grows |
| LogRotation.RunKeepsBounds | crates/aipass-agent/src/logging.rs:171-196 | with lines no longer than the limit every file is within it and the total is within the limit times the number of files |
| LogRotation.CleanRunFillsEverySlot | crates/aipass-agent/src/logging.rs:178-192 | without failures there is no gap, and once a write is gone every slot is in use |
| LogRotation.RunKeepsEnough | crates/aipass-agent/src/logging.rs:171-196 | over every run with every failure each rotated slot in use holds at least limit - longest + 1 bytes |
| LogRotation.CleanRunKeepsEnough | crates/aipass-agent/src/logging.rs:171-196 | from an empty directory and without failures, once anything was dropped the rotated files hold retained times (limit - longest + 1) bytes |
| LogRotation.GapExactlyWhenCutShort | crates/aipass-agent/src/logging.rs:178-192 | a gap opens exactly when removing the oldest file does not fail and the highest failing rename goes onto a slot in use below the oldest |
| LogRotation.FailedRenameOpensGap | crates/aipass-agent/src/logging.rs:178-192 | an input with a failing rename that opens a gap |
| RepeatLog.RepeatTable.PrepareAt | crates/aipass-agent/src/logging.rs:217-262 | the table after one message and its verdict equal the specification function |
| RepeatLog.RepeatTable.TryWrite | crates/aipass-agent/src/logging.rs:108-149 | a call outside a request scope goes through the table, one inside does not, and a failed write forgets its key either way |
| RepeatLog.FailedWriteShowsNext | crates/aipass-agent/src/logging.rs:108-149 | after a failed write the next message of its key is not suppressed, whenever it comes |
| RepeatLog.RunAgrees | crates/aipass-agent/src/logging.rs:217-262 | over every run the table has at most 1024 keys and agrees with the log |
| RepeatLog.VerdictsAreJustified | crates/aipass-agent/src/logging.rs:217-262 | a message is dropped only within a minute of a write of its key that did not fail, and a reported count is the number dropped since |
| RepeatLog.RepeatsAreDropped | crates/aipass-agent/src/logging.rs:217-262 | with readings in order a tracked key stays and its repeats are dropped |
| RepeatLog.ForgottenExactly | crates/aipass-agent/src/logging.rs:228-240 | a tracked key is forgotten exactly when its write fails or a new key meets a full table at a reading past its window |
| RepeatLog.SkewedReadingForgets | crates/aipass-agent/src/logging.rs:228-240 | a new key read ahead of the others makes a repeat appear again exactly when the table is full and the window is over by that reading |
| CloudKit.CloudKitBridge.BeginExchange | crates/aipass-agent/src/cloudkit.rs:37-72 | the first locked region of an exchange equals the specification function |
| CloudKit.CloudKitBridge.Leave | crates/aipass-agent/src/cloudkit.rs:116-127 | a leaving request takes its task out of queue and slot, and no other task |
| CloudKit.RunIsSound | crates/aipass-agent/src/cloudkit.rs:37-127 | the invariant of every interleaving: order, conservation and ownership of replies |
| CloudKit.RequestsGetTheirOwnReply | crates/aipass-agent/src/cloudkit.rs:74-128 | a request receives at most one reply, with its own id and after its task was handed out, and leaves nothing behind |
| CloudKit.FirstInFirstOut | crates/aipass-agent/src/cloudkit.rs:54-72 | tasks are first handed out in the order enqueued, and each is waiting, active, completed, withdrawn or displaced |
| CloudKit.ExclusiveRunIsUndisturbed | crates/aipass-agent/src/cloudkit.rs:54-71 | with one exchange at a time no active task is displaced |
| CloudKit.ActiveTaskIsRepeated | crates/aipass-agent/src/cloudkit.rs:54-59 | it stays active, and every exchange repeats it, until completed or withdrawn |
| CloudKit.DisplacedExactly | crates/aipass-agent/src/cloudkit.rs:60-70 | a task is displaced exactly when a waiting exchange resumes with a task active and another waiting |
| CloudKit.OverlapDisplaces | crates/aipass-agent/src/cloudkit.rs:60-70 | two overlapping exchanges that lose a task |
| VaultPaths.CanonicalVaultDir | crates/aipass-agent/src/paths.rs:51-76 | the loop over ancestors and the lexical loop equal the specification function |
| VaultPaths.RetryIsForward | crates/aipass-agent/src/paths.rs:57-73 | trying ever shorter ancestors answers as one pass that resolves and goes on by name from the first missing component |
| VaultPaths.CreatingKeepsNamespace | crates/aipass-agent/src/paths.rs:54-56 | creating directories changes neither the canonical directory nor the namespace of a path whose missing part meets no link |
| VaultPaths.KeptExactly | crates/aipass-agent/src/paths.rs:51-76 | when the missing part is only names, this holds for all creations exactly if it does not begin at a dangling link |
| VaultPaths.HeldExactly | crates/aipass-agent/src/paths.rs:51-76 | the same for every path that has a canonical directory, `..` in the missing part included: exactly if the walk stays on course wherever creations can take it |
| VaultPaths.CanonicalIsCanonical | crates/aipass-agent/src/paths.rs:51-76 | canonicalising twice is canonicalising once if the missing part is only names, dangling link or not, or meets no link |
| VaultPaths.CanonicalAgainExactly | crates/aipass-agent/src/paths.rs:51-76 | any directory is its own canonical directory exactly if its own name meets no link that leads somewhere |
| VaultPaths.SpellingsAgree | crates/aipass-agent/src/paths.rs:51-76 | spellings of one real ancestor with one rest give one canonical directory |
| VaultPaths.ParentStepReachesLink | crates/aipass-agent/src/paths.rs:63-71 | a `..` that leads back to an existing link breaks both |
| NativeClient.NativeClient.SendRequest | apps/extension/src/native-client.ts:263-290 | a request is registered with its timer and posted |
| NativeClient.NativeClient.PortDisconnected | apps/extension/src/native-client.ts:332-339 | the loop over pending requests equals the specification function |
| NativeClient.NativeClient.RetryOrFailPending | apps/extension/src/native-client.ts:405-419 | one retry if it fits before the deadline, else failure |
| NativeClient.RunIsSound | apps/extension/src/native-client.ts:263-427 | the invariant of every order of callbacks |
| NativeClient.ResolvedOnceInTime | apps/extension/src/native-client.ts:263-427 | a request is resolved exactly once, no later than its deadline, and posted at most twice |
| NativeClient.RetryBeforeTimeout | apps/extension/src/native-client.ts:405-419 | a retry still wanted is the only one and comes strictly before the timeout |
| NativeClient.AlwaysHopeful | apps/extension/src/native-client.ts:357-372 | with no port and no recovery exactly one reconnect timer is live, due within thirty seconds; delays stay within bounds |
| ImportTask.Task.ImportAll | crates/aipass-agent/src/subscription_import.rs:345-364 | an uninterrupted import answers every source in order: an account is imported, updated or found existing by the first source that settles it; later ones find it existing, or in conflict with a write that was not noted |
| ImportTask.Task.CommitAccount | crates/aipass-agent/src/subscription_import/persist.rs:31-117 | one commit, branch by branch, equals the specification functions: refusal, repeat, revision check, bound entry, write, and a write that fails before or after it is noted |
| ImportTask.Task.TakeAndRecord | crates/aipass-agent/src/subscription_import.rs:347-359 | one locked region equals the specification functions |
| ImportTask.EverySourceIsAnswered | crates/aipass-agent/src/subscription_import.rs:322-377 | whatever order reads end in, results follow the sources, counters agree throughout and are full at the end; an account is answered as cancelled only after a cancel, with the session ended or with the agent gone |
| ImportTask.ReadsAreBounded | crates/aipass-agent/src/subscription_import.rs:327-344 | at most four reads are ahead of the results |
| ImportTask.CommitsInSourceOrder | crates/aipass-agent/src/subscription_import.rs:345-359 | commits follow the sources, and no account is committed again after a write that was noted, whatever others do to the vault |
| ImportTask.CommittedOnce | crates/aipass-agent/src/subscription_import/persist.rs:61-105 | while nobody else edits the vault, no account is committed again after a write that was noted or changed the revision seen |
| ImportTask.CommittedAgainExactly | crates/aipass-agent/src/subscription_import/persist.rs:61-105 | a source of an account committed before is committed exactly if the account is not noted, its entry reads as in the snapshot, the session lasts and the vault takes it as not bound |
| ImportTask.UnnotedWriteIsRepeated | crates/aipass-agent/src/subscription_import/persist.rs:78-105 | a run that commits one account twice |
| ImportTask.CancelledMeansNoMoreCommits | crates/aipass-agent/src/subscription_import.rs:110-125 | once a cancel of a running import returns nothing more is committed |
| ImportTask.LockedMeansNoMoreCommits | crates/aipass-agent/src/subscription_import/persist.rs:35-43 | once the session is locked nothing more is committed, whatever the worker was about to do |
| ImportTask.ClearedMeansNoMoreCommits | crates/aipass-agent/src/session/locking.rs:12-28 | nothing is committed after the registry is cleared, which happens with the session locked |
| ImportRegistry.Imports.StartJob | crates/aipass-agent/src/subscription_import.rs:170-240 | starting a job equals the specification function, with the worker failing or not |
| ImportRegistry.Imports.FindJob | crates/aipass-agent/src/subscription_import.rs:67-96 | a ticket names its job for its session while it is kept |
| ImportRegistry.Imports.PruneJobs | crates/aipass-agent/src/subscription_import.rs:241-255 | exactly the expired jobs go |
| ImportRegistry.AtMostOneLiveJob | crates/aipass-agent/src/subscription_import.rs:170-196 | a job neither finished nor told to stop is the current one |
| ImportRegistry.ResultsStayReadable | crates/aipass-agent/src/subscription_import.rs:67-96 | a finished job can be read for five minutes and no longer, whatever is started or pruned meanwhile |
| Pricing.PricingStore.SyncNewApiPricing | crates/aipass-agent/src/pricing.rs:154-281 | the nested loops equal the specification, and what is stored is the saved form of what is returned, or nothing changed |
| Pricing.PricingStore.SyncSubApiPricing | crates/aipass-agent/src/pricing.rs:298-365 | the same for a gateway that only publishes a multiplier |
| Pricing.PastPricesStay | crates/aipass-agent/src/pricing.rs:178-228 | no group loses its place, name or owner, manual groups keep their versions and nothing is priced differently before now |
| Pricing.SavedPastPricesStay | crates/aipass-agent/src/pricing.rs:76-98 | the same of the sorted form that is saved |
| Pricing.SortSorts | crates/aipass-agent/src/pricing.rs:82-84 | saving orders the versions and keeps all of them |
| Pricing.NewPricesApply | crates/aipass-agent/src/pricing.rs:209-226 | from now on the table's rules are in force in every offered group that is not manual and has no later version of its own |
| Pricing.OtherAssignmentsStay | crates/aipass-agent/src/pricing.rs:229-276 | manual assignments, those outside the endpoint's managed groups, and those of other entries or secrets are unchanged |
| Pricing.AssignTwice | crates/aipass-agent/src/pricing.rs:229-276 | assigning twice is assigning once, also with repeated secrets |
| Pricing.SyncReprices | crates/aipass-agent/src/pricing.rs:178-228 | every offered group is repriced once, from what it was before, whatever else is offered |
| Pricing.RepriceAgainExactly | crates/aipass-agent/src/pricing.rs:209-226 | saving a repriced group and repricing it again changes nothing exactly if it is manual, already at the rules, or has no later version |
| Pricing.SyncAgainExactly | crates/aipass-agent/src/pricing.rs:154-281 | the same table applied again to what was saved changes nothing exactly if that holds of every offered group, and then what is saved is what was returned |
| Pricing.FutureVersionIsReapplied | crates/aipass-agent/src/pricing.rs:209-226 | a future version makes the next synchronisation add its rules again |
| Pricing.GeneratedNamesAreManaged | crates/aipass-agent/src/pricing.rs:283-291 | a generated group name is recognised exactly if the group has a visible name and the namespace brings no separator |
| Pricing.SubApiTwice | crates/aipass-agent/src/pricing.rs:298-372 | prices, pinned and foreign assignments are left alone and the same answer again changes nothing |
| ClaudeBridge.ValidateResults | crates/aipass-agent/src/claude_bridge.rs:700-725 | results are accepted exactly if there is one usable result for each pending call and none else |
| ClaudeBridge.AnswerCalls | crates/aipass-agent/src/claude_bridge.rs:295-301 | a turn of results answers every pending call with its own result and touches no other, or changes nothing |
| ClaudeBridge.AllAnsweredExactly | crates/aipass-agent/src/claude_bridge.rs:295-300 | whatever ids the calls have, an accepted turn leaves none waiting exactly if no waiting call comes after another of the same id |
| ClaudeBridge.ClaimsAreDistinct | crates/aipass-agent/src/claude_bridge.rs:136-146 | no call entry is claimed twice, and a claimed one asks for that tool and those arguments |
| ClaudeBridge.PollReadsOwnResult | crates/aipass-agent/src/claude_bridge.rs:147-157 | a poll reads the result accepted for that id, and only for a claimed call |
| ClaudePool.Bridge.MakeRoom | crates/aipass-agent/src/claude_bridge.rs:334-342 | the eviction loop removes only idle processes, the least recently used first, and stops at one place free |
| ClaudePool.Bridge.OpenReport | crates/aipass-agent/src/claude_bridge.rs:262-342 | a turn resumes a matching process, starts one after making room, or is refused |
| ClaudePool.NeverMoreThanSixteen | crates/aipass-agent/src/claude_bridge.rs:334-342 | over every run the pool has at most sixteen processes |
| ClaudePool.OpenProcessStays | crates/aipass-agent/src/claude_bridge.rs:107-117 | a process that serves a stream goes only when its stream, its process or its target does |
| ClaudePool.EvictionIsLeastRecentlyUsed | crates/aipass-agent/src/claude_bridge.rs:334-342 | at most one process is evicted, the idle one unused for longest, and only a pool full of open streams refuses |
| ClaudePool.ResultsNameOneProcess | crates/aipass-agent/src/claude_bridge.rs:273-293 | with distinct call ids results can go to one process only, whichever is met first |
| SyncWatch.Debounce.TakeDue | crates/aipass-agent/src/sync_watch.rs:57-71 | fires by the latest or the first event, and disarms |
| SyncWatch.BurstsCannotStarve | crates/aipass-agent/src/sync_watch.rs:41-72 | a poll late enough after the first unanswered event fires however many follow, and none fires without one |
| SyncWatch.DelaysBackOff | crates/aipass-agent/src/sync_watch.rs:262-274 | delays never exceed five minutes and do not shrink as failures go on |
| SyncWatch.FirstFailureMayBeSooner | crates/aipass-agent/src/sync_watch.rs:262-274 | a first failure shortens the delay that a success would have had exactly if it is not one of authorization and the mode is not WebDAV |
| SyncWatch.Watcher.RunTurn | crates/aipass-agent/src/sync_watch.rs:188-257 | one turn of the loop equals the specification function |
| SyncWatch.ChangesAreAnswered | crates/aipass-agent/src/sync_watch.rs:166-257 | a change seen keeps the debounce armed until a sync starts after it, and waits no longer than patience and back-off allow |
| SyncWatch.OldChangesStartASync | crates/aipass-agent/src/sync_watch.rs:226-256 | a turn that meets an old enough change outside a back-off starts a sync |
| Printers.ShellReadsItBack | crates/aipass-agent/src/autostart.rs:974-976 | a shell reads the quoted text as one word equal to the value |
| Printers.ExecLineIsReadBack | crates/aipass-agent/src/autostart/linux_session.rs:18-24 | the line that starts the agent is read as its four words, whatever the two paths hold |
| Printers.AssignmentsAreReadBack | crates/aipass-agent/src/autostart.rs:596-606 | the block of assignments sets each variable to its value, whatever the values hold |
| Printers.UnquoteExactly | crates/aipass-agent/src/proxy_recovery/installations.rs:44-59 | a text is accepted exactly if it is the printing of a value, and that value is returned |
| Printers.XmlEscapeIsOnePass | crates/aipass-agent/src/autostart.rs:991-998 | the chain of replacements is one pass over the characters |
| Printers.XmlReadsItBack | crates/aipass-agent/src/autostart.rs:991-998 | decoding the entities gives the value back |
| Printers.SystemdEscapeIsOnePass | crates/aipass-agent/src/autostart.rs:979-988 | the chain of replacements is one pass over the characters |
| Printers.SystemdReadsItBack | crates/aipass-agent/src/autostart.rs:979-988 | a quoted argument is read as one argument equal to the value |

## Left out

- Encryption, hashing, JSON and UUIDs: values, uninterpreted functions or fresh ids passed in.
- Process spawning, sockets, HTTP and the desktop shell: I/O around the modelled decisions.
- Request dispatch, type conversions and path discovery lists: one branch each.
- The Windows variant of vault paths, and permission errors while resolving a path.
- The extension's entry cache, whose favicon update is an unversioned read and write.
- Floating-point price arithmetic: rules are opaque and multipliers exact; a payload reaches the model as its priced groups.
- Message sanitising and redaction before a log line is written: a key stands for the sanitised message.
- The owner check of a login compares documents field by field; it is a rule passed in.
- AccountRotation.RunIsSound: follows one account, because only the epoch is shared between accounts; a cross-device sync that replaces a record is an edit, a rebind or a login here, and the copied provider and identity fields are not modelled.
- AccountRotation.RotationSurvives: an operation's own unacknowledged feedback commit counts as the vault having moved on.
- WebsocketCapability.UnpublishedIsQueued: edits by others come between calls, not within one; resetting the service clears the queue together with the vault.
- ProxyConfig.ProxyService.SetWholeConfig: validation is one flag, and the protocols and conversion switches it derives are not modelled; audit entries and pricing clean-up are left out.
- ProxyConfig.ProxyService.RemoveProviderReferences: the pricing assignments removed with it are left out.
- ProxyConfig.StoredTokensSurvive: assumes that a configuration file exists, since without one a load returns what is in memory; the import of a whole vault, which puts another file in its place, is not modelled.
- VaultPaths.Resolve: the limit on links is a parameter.
- NativeClient.RunIsSound: timers fire on time and ids are fresh; messages are not checked against the port that carried them, except in the theorem on reconnecting.
- NativeClient.AlwaysHopeful: replies are assumed to come while a port is open; the heartbeat is an opening of the port or a request.
- ImportTask.RunIsSound: a poisoned lock is left out; whether the vault takes an account, the revision a write leaves and when a worker notices that the agent is gone are parameters.
- ImportTask.Task.CommitAccount: an account has one entry, found by its identity or its older scope alike.
- ImportRegistry.ResultsStayReadable: clearing the registry, and a start from another session, end it.
- Pricing.SyncAgainExactly: group ids are assumed to be unique and group names of one payload distinct, as UUIDs and JSON objects are.
- ClaudeBridge.AnswerCalls: call ids are assumed to be unique, as the stream reader makes one for each block; `ClaudeBridge.AllAnsweredExactly` does without.
- ClaudePool.Bridge.OpenReport: checkpoints, grants and the command line of a process are left out.
- SyncWatch.ChangesAreAnswered: a change is what the watcher sees; a stamp that returns to its earlier value between two looks is not seen.
- Printers.ShellReadsItBack: outside quotes only plain characters are read.
- Printers.AssignmentsAreReadBack: the rest of the script around the assignments is left out.
- Printers.UnquoteExactly: the check that the path is absolute is left out.
- Printers.SystemdReadsItBack: the line syntax of unit files around the argument is left out, so a line break in a value is not ruled out.
