# ZROtext protocols and tooling, verified

Dafny models of the parts of ZROtext whose correctness rests on protocols, on
crash safety, on graph algorithms or on a printer and a parser that must agree,
with proofs of what those parts promise. `dafny verify dfyconfig.toml` checks
everything.

| area | files |
|---|---|
| owner conversation controller | `ConversationValues`, `ConversationController`, `ConversationRuns`, `ConversationProgress` |
| grant setup, recovery, disconnect | `GrantSetup`, `GrantSafety`, `GrantCover`, `GrantCount`, `GrantProgress`, `GrantLimits` |
| client configuration updates | `JsonText`, `JsonReadsBack`, `JsonMembers`, `ConfigPlan`, `ConfigApply` |
| manifest checkpoint store | `CheckpointCodec`, `CheckpointStore` |
| Jules starter and collector | `JulesLabels`, `JulesCollector` |
| roadmap prerequisites | `Graphs`, `Roadmap` |
| native Cargo inventory | `CargoTree`, `CargoPrinter`, `CargoLine`, `CargoText`, `CargoComponents`, `CargoInventory` |
| privacy scan | `BatchReader`, `PrivacyScan` |
| PostgreSQL test lanes | `Lanes`, `LaneReceipts` |
| Java trust store inventory | `Base64`, `Utf8`, `TrustReport`, `TrustStore`, `TrustFilter` |
| Windows fixture | `EnvironmentBlock`, `DesktopAcl` |
| shared | `Wrappers`, `Decimals`, `Ordinal`, `Splitting`, `TextLines`, `Tables` |

Concurrent code is a machine whose steps are the stretches between two `await`s,
or between two durable or remote effects. A run is any sequence of steps, so a
statement about every run is a statement about every interleaving, every crash
point and every lost reply. Code that updates fields or walks with a loop is a
class or a method proved against a function of its inputs, and the lemmas speak
about that function.

Safety is stated for every run from the start, and beside it stand lemmas that
the protocols do their work when nothing disturbs them (`ConversationProgress`,
`GrantProgress`, and the last lemmas of `ConfigApply`, `CheckpointStore`,
`JulesLabels` and `JulesCollector`).

Conventions and assumptions:

- Clocks, replies, failures and crashes are arguments of the steps. The clock
  never runs backwards.
- SHA-256, git object names, secret stores and certificate parsing are arbitrary
  functions or abstract stores. A digest is taken as injective only in
  `LaneReceipts`, where the lemmas say so.
- JSON texts are modelled as text, both of configurations and of checkpoints. Only
  the conversion of floating-point numbers is an arbitrary function `repr`, from the
  text that is read to the text that Python writes for it: what it writes is infinite
  or reads as the same number (`JsonText.Settles`).
- Grants: deleting a session at the server deactivates the grants it created, and
  no grant is created for a deleted session. A create request may take effect
  late. Installs, recoveries and disconnects overlap freely.
- Jules: listings are complete and collector runs do not overlap each other. A
  failing request has taken effect or not by the time it fails; what happens
  otherwise is stated apart (`JulesCollector.LateRequestIsExact`).

Some promises need a condition. Each is stated with a run from the start that
breaks it, next to the exact condition under which it holds:

- Two recoveries that overlap can remove the intent of a later install
  (`GrantLimits.IntentCanBeLost`). Every possibly active grant stays covered as
  long as no recovery removes another file than the one it compared; such runs are
  called guarded (`GrantSafety.IssuanceIsCrashSafe`). A removal keeps all grants
  covered in every guarded continuation if and only if it is guarded or the attempt
  behind the removed file is spent: its session is deleted, or its grant is gone and no
  install is left to ask for one (`GrantCover.RemovalIsExact`). Recoveries one at a time
  are always guarded (`GrantSafety.SerialRunsAreGuarded`). The number of create requests is bounded in
  every run without any condition (`GrantCount.IssuanceIsBounded`).
- An install that dies between creating and writing its intent leaves an empty
  file (`GrantLimits.CrashLeavesEmptyIntent`). Some guarded run clears the path if and
  only if the file was written (`GrantLimits.ClearableIfWritten`); some run of any kind
  clears it if and only if it was written or a recovery is about to remove a file that
  it compared before (`GrantLimits.EmptiedIfWrittenOrMatched`). No grant is active
  behind an empty file, so safety is kept and only progress is lost.
- A Jules start that stops between its comment and its label leaves a session
  without the label (`JulesLabels.StoppedStartIsStranded`), and so does a collector
  that stops after deleting a label which a start has just added
  (`JulesLabels.StoppedCollectorIsStranded`). A step takes the protection of the
  label away if and only if it is a stop that abandons somebody
  (`JulesLabels.NextProtects`); with nothing else running, a stop keeps the promise
  if and only if the label is on or no session is unfinished
  (`JulesLabels.LastStopIsExact`).
- A request that takes effect after its run gave up, a result as comment or as
  review, a notice or a message, repeats something exactly if a later run has done
  the same already; a message moreover must not come before its notice
  (`JulesCollector.LateRequestIsExact`).
- A configuration that holds a number such as 1e999 is read, since Python takes the
  number as infinite; but it is written as `Infinity`, which the tool then refuses
  (`ConfigApply.InfiniteNumberIsFinal`, `ConfigApply.OverflowIsInfinite`). In every run the
  file holds all completed edits if and only if the first configuration has no such
  number or nothing was replaced (`ConfigApply.NoUpdateIsLost`).
- Disconnecting right after installing gives the same configuration back if and
  only if there was a server table (`ConfigPlan.RemoveUndoesInstall`).

## Model

| member | source | states |
|---|---|---|
| ConversationController.Controller.constructor | web/owner/conversation-core.js:21-22 | starts without conversation, draft, review, messages or unknown outcome |
| ConversationController.Controller.Invalidate | web/owner/conversation-core.js:23-26 | new revision, no review; clearing also drops conversation, draft and messages, never the unknown outcome |
| ConversationController.Controller.Live | web/owner/conversation-core.js:27 | refuses, and clears, exactly without an unexpired conversation |
| ConversationController.Controller.StartAuthorize | web/owner/conversation-core.js:28-32 | refused once an outcome is unknown; otherwise clears and takes a ticket and a start time |
| ConversationController.Controller.FinishAuthorize | web/owner/conversation-core.js:32-37 | installs the scope only for an unchanged ticket and a valid, unexpired, active reply |
| ConversationController.Controller.Edit | web/owner/conversation-core.js:39 | a live edit replaces the draft and drops the review |
| ConversationController.Controller.StartPrepare | web/owner/conversation-core.js:40-45 | one prepare or confirm at a time; the request carries the present scope and body |
| ConversationController.Controller.FinishPrepare | web/owner/conversation-core.js:46-53 | installs a review only for an unchanged ticket, scope and draft |
| ConversationController.Controller.StartConfirm | web/owner/conversation-core.js:55-62 | consumes the review before the send begins |
| ConversationController.Controller.Guard | web/owner/conversation-core.js:63 | passes exactly for a live conversation with the same ticket and scope |
| ConversationController.Controller.FinishConfirm | web/owner/conversation-core.js:64-74 | shows the sent message, or latches an unknown outcome, or leaves everything |
| ConversationController.Controller.StartRead | web/owner/conversation-core.js:76-78 | a read carries the ticket and scope of its start |
| ConversationController.Controller.FinishRead | web/owner/conversation-core.js:78-81 | shows the message only for an unchanged ticket and scope |
| ConversationController.Controller.Observe | web/owner/conversation-core.js:83-87 | drops an expired conversation; a review is visible only while nothing is in flight |
| ConversationRuns.StepKeeps | web/owner/conversation-core.js:21-89 | every event keeps the whole invariant, from any state that satisfies it |
| ConversationRuns.SentAtMostOnce | web/owner/conversation-core.js:40-75 | in every run: busy exactly while one prepare or confirm is in flight; each review confirmed at most once, and nothing confirmed that was not reviewed |
| ConversationRuns.ReviewIsConfirmable | web/owner/conversation-core.js:55-62 | in every run: a review in a live idle conversation passes all of the re-checks in confirm |
| ConversationRuns.TicketImpliesScope | web/owner/conversation-core.js:46-49 | in every run: an unchanged ticket implies unchanged scope and draft, after every await and in the guard |
| ConversationRuns.DisplayIsIsolated | web/owner/conversation-core.js:76-87 | in every run: each message on display was sent or read under the present conversation, and nothing is on display without one |
| ConversationRuns.GuardIsTimely | web/owner/conversation-core.js:27-38 | in every run: the guard passes only in the reviewed scope, before the authority ends and less than 60 s after it was asked for |
| ConversationRuns.UnknownOutcomeIsFinal | web/owner/conversation-core.js:68-73 | after an unknown outcome, whatever was in flight and whatever follows: the record stays, no conversation returns, no adapter call or confirmation begins |
| ConversationProgress.ReviewedMessageIsSent | web/owner/conversation-core.js:39-68 | from any live idle state: exactly the text written is shown as sent, and exactly the reviewed candidate is called, once |
| ConversationProgress.ExchangeCompletes | web/owner/conversation-core.js:28-81 | from any idle state without unknown outcome: authority is taken, a message sent and an answer read; exactly the two texts are shown, in the conversation the authority names, and one candidate was called |
| GrantSafety.StepKeeps | scripts/guided_workflow_setup.py:155-299 | every effect of install, recover and disconnect, every crash and every server event keeps the invariant, if a removal finds the compared file |
| GrantSafety.IssuanceIsCrashSafe | scripts/guided_workflow_setup.py:187-281 | with any overlap of installs, recoveries and disconnects: if no recovery removes another file than it compared, each possibly active grant is covered by a durable intent naming its creator |
| GrantSafety.UnlinkIsExact | scripts/guided_workflow_setup.py:276-280 | after any such run a removal leaves all grants covered if and only if it removes the compared file, or none, or no grant is possibly active |
| GrantCover.RemovalIsExact | scripts/guided_workflow_setup.py:276-280 | after any such run a removal keeps all grants covered in every guarded continuation if and only if it removes the compared file, or none, or the attempt of the removed file is spent |
| GrantSafety.SerialRunsAreGuarded | scripts/guided_workflow_setup.py:252-299 | with recoveries and disconnects one at a time the condition always holds |
| GrantCount.IssuanceIsBounded | scripts/guided_workflow_setup.py:213-230 | in every run whatever overlaps: create requests are at most one plus confirmed recoveries |
| GrantSafety.CustodyOutlivesGrants | scripts/guided_workflow_setup.py:231-299 | under the same condition no step lets go of a secret, the installed entry or the intent before the grants behind it are confirmed revoked |
| GrantSafety.StepSafe | scripts/workflow_owner_setup.py:123-156 | every single effect, with its reply confirmed, refused or lost, keeps the invariant and releases no custody early, if a removal finds the compared file |
| GrantProgress.InstallCompletes | scripts/guided_workflow_setup.py:213-247 | without entry and intent an undisturbed install leaves an active grant, its token, the entry naming both and the intent covering them |
| GrantProgress.RecoveryCompletes | scripts/guided_workflow_setup.py:252-281 | from every reachable state with a recorded intent, whatever crashed before: one recovery ends every grant, drops secret and intent, and touches nothing else |
| GrantProgress.DisconnectCompletes | scripts/guided_workflow_setup.py:284-299 | from every reachable state with a matching entry: one disconnect removes entry, secret and intent, and no grant is or may become active |
| GrantLimits.OverlappingRecoveriesLoseAnIntent | scripts/guided_workflow_setup.py:273-281 | two recoveries past the file comparison: a new install's intent is removed while its grant is active |
| GrantLimits.OverlapReachesBothMatched | scripts/guided_workflow_setup.py:252-281 | wherever an intent is at the path and an install waits, two overlapping recoveries reach that point |
| GrantLimits.IntentCanBeLost | scripts/guided_workflow_setup.py:252-281 | a whole run from the start: two installs, two overlapping recoveries, and an active grant that nothing covers |
| GrantLimits.CrashLeavesEmptyIntent | scripts/guided_workflow_setup.py:219-224 | a crash right after the exclusive creation leaves an empty intent |
| GrantLimits.EmptyIntentCoversNone | scripts/guided_workflow_setup.py:213-227 | with an intent that stayed empty no grant is or may become active |
| GrantLimits.EmptyIntentIsFinal | scripts/guided_workflow_setup.py:252-281 | an intent that stayed empty stays at the path, and no grant becomes active, in every further guarded run, and in every further run at all unless a recovery is about to remove a file it compared before |
| GrantLimits.ClearableIfWritten | scripts/guided_workflow_setup.py:252-281 | from every reachable state without entry whose creating install is gone: some guarded run clears the path if and only if the intent was written, and then one recovery does |
| GrantLimits.EmptiedIfWrittenOrMatched | scripts/guided_workflow_setup.py:252-281 | from every such state some run, guarded or not, clears the path if and only if the intent was written or a recovery is about to remove a file it compared before |
| JsonReadsBack.ReadIsLegible | scripts/agent_setup.py:48-73 | every value the reader yields has distinct keys, integers within the digit limit and numbers that settle |
| JsonReadsBack.CodesReadBack | scripts/agent_setup.py:105 | every string of encodable characters reads back from its escapes |
| JsonReadsBack.ValueReadsBack | scripts/agent_setup.py:48-105 | every legible value, written at any depth before any delimiter, reads back as itself, or is refused because it holds an infinite number |
| JsonReadsBack.TextReadsBack | scripts/agent_setup.py:68-105 | the same for a whole text with its final new line |
| ConfigPlan.RenderReadsBack | scripts/agent_setup.py:59-105 | the bytes of a configuration read back as it if and only if it holds no infinite number; otherwise they are refused |
| ConfigPlan.EditPreservesTheRest | scripts/agent_setup.py:88-104 | an edit sets or removes its own entry and changes no other server and no other key, nor their order |
| ConfigPlan.RemoveUndoesInstall | scripts/agent_setup.py:88-104 | removal after an install gives the configuration back up to an empty server table, and exactly back if and only if there was a table |
| ConfigPlan.EditedIsFinite | scripts/agent_setup.py:90-104 | an edit that does not conflict neither brings in nor takes away an infinite number |
| ConfigPlan.PlanReadsBack | scripts/agent_setup.py:79-107 | what a plan writes reads back as the edited configuration, or is refused, exactly according to the numbers in the file |
| ConfigPlan.PlanIsIdempotent | scripts/agent_setup.py:79-113 | planning the same edit on its own result changes nothing, or the result is refused because of an infinite number |
| ConfigApply.LockIsExclusive | scripts/agent_setup.py:122-132 | in every run from any file, with crashes: at most one process holds the lock |
| ConfigApply.ReplacesWhatWasReviewed | scripts/agent_setup.py:133-155 | in every run from any file: a replacement goes from exactly the reviewed bytes to exactly the planned bytes |
| ConfigApply.NoUpdateIsLost | scripts/agent_setup.py:115-173 | in every run: the file is the first configuration with all completed edits applied one after the other if and only if that holds no infinite number or nothing was replaced; otherwise one replacement happened and the file is refused |
| ConfigApply.UnreadableFileIsKept | scripts/agent_setup.py:59-73 | in every run a file that cannot be read stays as it is |
| ConfigApply.EditAllPreservesTheRest | scripts/agent_setup.py:88-104 | a sequence of edits changes no server it does not name |
| ConfigApply.OthersSurvive | scripts/agent_setup.py:88-104 | a sequence of edits changes no key outside the server table, nor their order |
| ConfigApply.OtherServersSurvive | scripts/agent_setup.py:115-173 | in every run, whenever the file can be read: servers that no completed edit named, and all other keys, are as they were |
| ConfigApply.UpdateCompletes | scripts/agent_setup.py:115-173 | undisturbed, a planned change replaces the file by the planned bytes and gives the lock back |
| ConfigApply.InfiniteNumberIsFinal | scripts/agent_setup.py:68-105 | a file with one number that is read as infinite is accepted, and any accepted install leaves a file that is refused |
| ConfigApply.OverflowIsInfinite | scripts/agent_setup.py:68-105 | 1e999 can be such a number, under a conversion that satisfies the assumption on numbers |
| CheckpointCodec.CanonicalByValue | web/owner/conversation-manifest03-recovery.js:15 | canonical decimals are equal texts exactly when they are equal numbers |
| CheckpointCodec.DecodeExact | web/owner/conversation-manifest03-recovery.js:44-48 | decoding accepts exactly the canonical text of each valid checkpoint and returns that checkpoint |
| CheckpointCodec.SameText | web/owner/conversation-manifest03-recovery.js:16-21 | two valid checkpoints have the same text exactly when they are the same |
| CheckpointCodec.KeyDeterminesScope | web/owner/conversation-manifest03-recovery.js:29 | different scopes have different storage keys |
| CheckpointStore.Admit | web/owner/conversation-manifest03-recovery.js:62-66 | admits exactly valid candidates that keep binding and identity and do not go back |
| CheckpointStore.Holds | web/owner/conversation-manifest03-recovery.js:70 | the stored text is that of the expected checkpoint |
| CheckpointStore.Store.constructor | web/owner/conversation-manifest03-recovery.js:31-43 | an empty store |
| CheckpointStore.Store.Transact | web/owner/conversation-manifest03-recovery.js:49-74 | one compare-and-set, or nothing at all when refused, full or interrupted |
| CheckpointStore.Store.Read | web/owner/conversation-manifest03-recovery.js:61 | what is stored, with undecodable records as errors |
| CheckpointStore.CheckpointsAreMonotone | web/owner/conversation-manifest03-recovery.js:62-77 | over every schedule of calls: keys stay, binding and identity never change, versions never decrease, equal versions are equal records, at most 128 entries |
| CheckpointStore.PassedCheckpointsStayPassed | web/owner/conversation-manifest03-recovery.js:67-74 | over every schedule: a checkpoint once passed never returns |
| CheckpointStore.FirstCallWins | web/owner/conversation-manifest03-recovery.js:67-74 | of two calls that expect the same, the second changes nothing once the first has |
| CheckpointStore.MatchingCallCommits | web/owner/conversation-manifest03-recovery.js:62-74 | an admissible call whose expectation holds, and which has room, is not refused |
| JulesLabels.UnfinishedSessionsAreLabelled | scripts/jules_pr_review.py:641-652 | for every interleaving of starts and collector in which every stop is harmless: once all have ended, a pull request with an unfinished session is labelled |
| JulesLabels.NextProtects | scripts/jules_pr_review.py:528-535 | a post, add, check, delete or re-check never takes away the protection of the label, and a stop does exactly if it abandons a session |
| JulesLabels.StoppedStartIsStranded | scripts/jules_pr_review.py:408-410 | a start that stops between its comment and its label leaves the session unlabelled |
| JulesLabels.StoppedCollectorIsStranded | scripts/jules_pr_review.py:641-652 | a collector that stops between deleting and looking again leaves a session unlabelled although every start ended in order |
| JulesLabels.LastStopIsExact | scripts/jules_pr_review.py:641-652 | with nothing else running a stop keeps the promise if and only if the label is on or no session is unfinished |
| JulesLabels.LabelComesOff | scripts/jules_pr_review.py:641-652 | once every session has its result, an undisturbed collector run removes the label and nothing else |
| JulesCollector.PullRequest.Collect | scripts/jules_pr_review.py:549-640 | one collector run over the comments, with a reply or failure for each request, and whether it failed |
| JulesCollector.EffectsHappenAtMostOnce | scripts/jules_pr_review.py:549-631 | over any sequence of runs with failures at any request: one automatic message per session, only after its marker, and one published result |
| JulesCollector.SettledSessionsArePublished | scripts/jules_pr_review.py:601-631 | after a run without failures, whatever state the others are in, a started session that has settled has exactly one result |
| JulesCollector.LateRequestIsExact | scripts/jules_pr_review.py:580-631 | a result (as comment or review), notice or message that takes effect after its run gave up keeps the at-most-once counts if and only if no later run has done the same and a message follows its notice |
| JulesCollector.LateResultPublishesTwice | scripts/jules_pr_review.py:623-631 | a failed request, a second run and the late effect of the first give two results |
| JulesCollector.ResumedKeeps | scripts/jules_pr_review.py:580-600 | reserving the marker and then sending the message keeps the at-most-once invariant, with a failure at either request |
| JulesCollector.PublishedKeeps | scripts/jules_pr_review.py:623-631 | publishing as a review or as a comment keeps the invariant, with a failure that took effect or not |
| Roadmap.Visitor.constructor | scripts/roadmap.py:146-149 | nothing collected, nothing being visited |
| Roadmap.Visitor.Visit | scripts/roadmap.py:151-160 | adds exactly what the capability reaches, or fails below a cycle; terminates on cyclic data too |
| Roadmap.Prerequisites | scripts/roadmap.py:144-164 | raises exactly when a cycle is reachable, and otherwise returns exactly the upstream closure |
| Roadmap.CheckCycles | scripts/roadmap.py:102-104 | visiting every capability succeeds exactly on acyclic dependencies |
| Roadmap.CheckUseCase | scripts/roadmap.py:117-141 | accepts exactly well-described use cases with known, distinct requirements all of whose transitive prerequisites are at the stage or later |
| Roadmap.Validate | scripts/roadmap.py:99-141 | accepts exactly acyclic roadmaps with a fitting map and stated gates whose use cases are distinct, described and supported all the way up |
| CargoText.ParseTree | android/tools/native_inventory.py:220-257 | the loop over lines, stack, graph and facts computes the reading function, errors included |
| CargoLine.LineReadsBack | android/tools/native_inventory.py:224-246 | every printed line is recognised and gives back depth, identity, license, features, the repeat mark and an accepted source |
| CargoText.AcceptedTextIsRooted | android/tools/native_inventory.py:220-257 | of any accepted text: every node is reached from the root, edges lead to known nodes, and the lock file vouches for each |
| CargoTree.AcceptedTreeIsRooted | android/tools/native_inventory.py:220-257 | of any accepted text: the first record is the root, every node is reached from it, edges lead to known nodes |
| CargoPrinter.PrintReadsBack | android/tools/native_inventory.py:223-254 | reading one printed package from any reader state adds exactly its edges and its descendants |
| CargoPrinter.PrintedTreeReadsBack | android/tools/native_inventory.py:247-257 | for every finite DAG and root: the printed records give back exactly the reachable nodes, edges and facts |
| CargoText.PrintedTextReadsBack | android/tools/native_inventory.py:216-257 | the same for the printed text, however the packages are spelled |
| CargoInventory.AddGraph | android/tools/native_inventory.py:279-293 | edges of one target are united with those of the others |
| CargoInventory.AddComponents | android/tools/native_inventory.py:279-292 | the components of one target's packages are brought up to date |
| CargoInventory.AddLibraries | android/tools/native_inventory.py:295-308 | each packaged library with its digest depends on exactly the root, or the error for a missing digest |
| CargoInventory.MergeTrees | android/tools/native_inventory.py:272-293 | the trees of all targets joined, or the error that stops the merge |
| CargoInventory.MergeInventory | android/tools/native_inventory.py:260-310 | packages, libraries and edges of the merge, or the error that stops it, with the check of the commit's form and of the targets |
| CargoInventory.Reachable | android/tools/native_inventory.py:419-427 | the walk ends with exactly the reflexive transitive closure, and fails exactly if a reached node is missing |
| CargoInventory.MergedInventoryIsComplete | android/tools/native_inventory.py:428-432 | in any bill of materials: the closure is exactly the merged packages, and the check passes exactly if no other Cargo component is there and root material is |
| CargoInventory.MergedPackagesAreChecked | android/tools/native_inventory.py:433-451 | every merged package passes its check: features of the targets, all four for the root, and either the commit or one checksum |
| CargoInventory.MergedLibrariesAreChecked | android/tools/native_inventory.py:408-418 | every merged library has exactly its entry, target and digest and depends on exactly the root |
| CargoComponents.UpdatedKeeps | android/tools/native_inventory.py:280-292 | one more target keeps a component well formed and adds its features |
| BatchReader.FrameReadsBack | scripts/privacy_guard.py:314-320 | one frame anywhere in the output gives back its blob and the offset of the next |
| BatchReader.ReadBlobs | scripts/privacy_guard.py:305-321 | the loop over offsets computes the unframing function, errors included |
| BatchReader.BatchReadsBack | scripts/privacy_guard.py:305-321 | for all contents: exactly the blobs asked for, and failure exactly if one is missing or no blob |
| PrivacyScan.FindPending | scripts/privacy_guard.py:271 | every blob whose result is not cached is asked for, once |
| PrivacyScan.PendingDecides | scripts/privacy_guard.py:271-272 | reading only what is not cached fails exactly when reading everything would |
| PrivacyScan.Scanner.constructor | scripts/privacy_guard.py:381 | an empty cache |
| PrivacyScan.Scanner.Fetch | scripts/privacy_guard.py:305-321 | the blobs asked for, through the framed output |
| PrivacyScan.Scanner.Content | scripts/privacy_guard.py:286-288 | a blob from the batch, or read now |
| PrivacyScan.Scanner.ScanEntry | scripts/privacy_guard.py:274-296 | one file's findings are those of a plain scan, whatever the cache holds |
| PrivacyScan.Scanner.ScanFiles | scripts/privacy_guard.py:274-297 | all files' findings are those of a plain scan |
| PrivacyScan.Scanner.VendoredAllowlist | scripts/privacy_guard.py:171-192 | the manifest is found although its blob may be cached and not read |
| PrivacyScan.Scanner.ScanSnapshot | scripts/privacy_guard.py:263-297 | findings or failure of the plain scan from any sound cache, and the cache stays sound |
| PrivacyScan.ScanAll | scripts/privacy_guard.py:380-383 | a run with one shared cache reports exactly what plain scans of the distinct snapshots report |
| Lanes.AssignedExactly | scripts/ci_rust_postgresql.py:141-149 | for any hash: a lane is assigned exactly the tests whose one lane it is |
| Lanes.AssignmentIsStable | scripts/ci_rust_postgresql.py:145-148 | other tests in the inventory never move a test |
| Lanes.LaneOf | scripts/ci_rust_postgresql.py:135-149 | the lane of a test is a lane that owns its package |
| Lanes.DispatchedIsValid | scripts/ci_rust_postgresql.py:339-359 | a record is written exactly if the assigned tests passed, each once, and the harness counts and filters agree; and it is valid |
| Lanes.ValidateRecords | scripts/ci_rust_postgresql.py:362-382 | accepts exactly the valid record of every target, with at least one test in the lane |
| LaneReceipts.SharesAreEverything | scripts/ci_rust_postgresql.py:141-149 | the shares of all lanes, in any order, are exactly the inventory without repetition |
| LaneReceipts.CheckReceipt | scripts/ci_rust_postgresql.py:446-451 | one receipt is of this source, suite, workspace and lane |
| LaneReceipts.CheckSeals | scripts/ci_rust_postgresql.py:452-456 | each digest is that of the receipt's own inventory |
| LaneReceipts.CheckUnions | scripts/ci_rust_postgresql.py:458-461 | the passed tests of all receipts are the inventory, none twice |
| LaneReceipts.CheckAllButLast | scripts/ci_rust_postgresql.py:441-457 | every check before the union check |
| LaneReceipts.VerifyReceipts | scripts/ci_rust_postgresql.py:441-461 | for any digest it succeeds exactly if every check does, the union check among them |
| LaneReceipts.UnionIsImplied | scripts/ci_rust_postgresql.py:458-461 | with an injective digest the other checks imply the union check |
| LaneReceipts.EveryTestPassesOnce | scripts/ci_rust_postgresql.py:458-461 | verified receipts, for any digest: every test of every target passed in its own lane and in no other, and nothing else passed |
| Base64.DecodeEncode | scripts/check_java_toolchain.py:145-149 | base64 reads back for all byte sequences |
| Utf8.DecodeIsExact | scripts/JavaTrustProbe.java:27-29 | decoding gives a string exactly for the one UTF-8 encoding of that string |
| TrustReport.FieldReadsBack | scripts/check_java_toolchain.py:145-149 | a field decodes to the text that was encoded |
| TrustReport.LinesReadBack | scripts/check_java_toolchain.py:154-155 | printed lines split back into the same lines |
| TrustReport.ReadInventory | scripts/check_java_toolchain.py:152-172 | the loop over lines computes the reading function, refusals included |
| TrustStore.CollectInventory | scripts/JavaTrustProbe.java:35-47 | aliases with fingerprints, or the refusal of other entries and of empty stores |
| TrustStore.CollectAttributes | scripts/JavaTrustProbe.java:49-61 | attributes by name, or the refusal of a repeated name |
| TrustStore.QualifyAll | scripts/JavaTrustProbe.java:68-71 | the attributes of every entry, or the refusal |
| TrustStore.DescribeEntry | scripts/JavaTrustProbe.java:66-72 | the lines of one certificate and its attributes |
| TrustStore.DescribeAll | scripts/JavaTrustProbe.java:66-72 | the lines of all certificates in the map's order |
| TrustStore.Describe | scripts/JavaTrustProbe.java:63-73 | the loops print the report, or refuse the store |
| TrustStore.EntriesReadBack | scripts/JavaTrustProbe.java:66-72 | the lines of any entries add exactly those certificates with their attributes |
| TrustStore.ReportReadsBack | scripts/JavaTrustProbe.java:63-73 | every printed report is read as exactly the store's contents, and refused exactly for another type or an empty alias or attribute name |
| TrustFilter.ReadPolicy | scripts/JavaTrustProbe.java:76-84 | accepts exactly four distinct fingerprints |
| TrustFilter.RemoveBlocked | scripts/JavaTrustProbe.java:91-98 | what is expected again is what is not blocked |
| TrustFilter.CheckAttributes | scripts/JavaTrustProbe.java:109-113 | the retained entries have equal, well-formed attributes |
| TrustFilter.Filter | scripts/JavaTrustProbe.java:75-127 | succeeds exactly if every check holds of the original and of whatever the copy became, and then prints the report of the copy |
| TrustFilter.FilterAgrees | scripts/check_java_toolchain.py:175-181 | if the filter succeeds, the copy's report is read as exactly the certificates retained from the original's, and no impacted root is left |
| EnvironmentBlock.ParseBlock | scripts/windows_native_ci.cs:288-297 | the loop over entries computes the parsing function, errors included |
| EnvironmentBlock.WriteBlock | scripts/windows_native_ci.cs:303-307 | the block of a dictionary, or the error for an embedded NUL or for its length |
| EnvironmentBlock.MergeBlocks | scripts/windows_native_ci.cs:300-308 | the user's variables with the fixed ones assigned over them, written as a block |
| EnvironmentBlock.EntryReadsBack | scripts/windows_native_ci.cs:292-294 | names that begin with a sign and values that contain signs read back |
| EnvironmentBlock.MergedReadsBack | scripts/windows_native_ci.cs:288-308 | for all blocks: merging fails exactly for a bad entry or a long result, and else reads back as the user's variables overridden case-insensitively, in order |
| DesktopAcl.WithoutFixture | scripts/windows_native_ci.cs:180-184 | the filter keeps the other entries in order |
| DesktopAcl.WithFixtureGrant | scripts/windows_native_ci.cs:189-194 | appends one allow entry |
| DesktopAcl.KeptCounts | scripts/windows_native_ci.cs:180-184 | unrelated entries stay as often as they were, fixture entries vanish |
| DesktopAcl.GrantLeavesNoTrace | scripts/windows_native_ci.cs:180-194 | filtering after a grant, and after whatever was appended since, is filtering before it, in order |
| DesktopAcl.Count | scripts/windows_native_ci.cs:235-236 | counts are multiplicities |
| DesktopAcl.Preserved | scripts/windows_native_ci.cs:247-248 | the key count and the per-key checks hold exactly for equal counts |
| DesktopAcl.Struck | scripts/windows_native_ci.cs:249-251 | striking off succeeds exactly if every original entry is left |
| DesktopAcl.CleanDesktop | scripts/windows_native_ci.cs:231-252 | succeeds exactly if the list holds the unrelated entries as a multiset, all original ones among them, and nothing of the fixture |

## Left out

- Conversation adapter, page and endpoint: replies are arguments; `scope` takes the shape of a scope as given.
- Conversation clock readings within one uninterrupted stretch of code are one reading.
- Grants: local path and permission checks, digests of reviewed plans and logging out only refuse or restrict, and are not modelled; `write_intent` is one step.
- Configuration: file identity checks, external editors that ignore the lock, and nesting deeper than Python recurses. The entry of an edit is the object with a command and its arguments that the tool plans.
- Checkpoints: opening, upgrading and closing the database; an interruption is an argument of the transaction.
- Jules: who may command a review, patch handling and the text of published results; `pages` cuts listings at 1,000 items and the model takes them as complete.
- Roadmap: the checks of single capabilities before the dependencies, and all rendering; stages, priorities and availabilities are enumerations.
- CargoText.ParseTree: digits are those of ASCII, and whether a path lies in the reviewed source is a given function.
- CargoInventory.MergeInventory: the record of the application and the packaged generic components, which the source adds after the cited lines.
- BatchReader.ReadBlobs: does not model that `int` refuses numbers of more than 4,300 digits.
- PrivacyScan: the line, name and vendored-digest rules are arbitrary functions; git is a fixed map from names to objects.
- Lanes: Cargo, the text of libtest output and workspace metadata; source identity and workspace inventory are opaque values.
- LaneReceipts.CheckAllButLast: the receipt and digest checks, one loop in the source, are two loops here.
- Trust stores: certificates, providers and files; `verify_effective` and the manifest repeat the same line format with fewer fields.
- TrustReport: strings hold no lone surrogates, which Java replaces when it encodes.
- Base64.DecodeEncode: unused bits after the last byte are ignored on decoding, as Python does; other characters are refused.
- EnvironmentBlock: the folding of case is an arbitrary function on characters; strings are sequences of characters, not of UTF-16 units.
- DesktopAcl: entries are compared as values, which stands for comparing their binary forms.
- Launching processes and jobs on Windows, and everything else that is a call into the system.
- Release, packaging, emulator and smoke scripts, shape validators and generated documentation: foreign effects or single checks.
- The Rust server and the Android application are not part of this model.
