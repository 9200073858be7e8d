# A verified model of falken-core

falken-core is the runtime of a coding agent. A session starts providers, runs an agent loop against a language
model, and lets the model change a workspace only through a managed file service. This project models the four
parts of it that carry the most state, and proves what each is for.

**Managed file transactions.** `Lines`, `Text`, `Hunks`, `UnifiedDiff`, `DiffRoundTrip`, `PatchReader`, `LineRanges`
and `ExactEdit` are the texts: lines, hunks, the git-style unified diff (POSIX.1-2017, Shell & Utilities, `diff`
utility, section "Diff -u or -U Output Format"), and exact-string edits. `Workspace`, `Restores`, `Edits` and
`PatchTransaction` say what each operation does to a world of files, directories, read tokens and other writers, with
every outcome of every commit. `NoLostUpdate` and `SafeRuns` hold the theorems about any history; `DirectoryRollback`,
`AllOrNothing`, `PatchOutcome`, `MultiEditFold` and `MultiEditOutcome` those about transactions in a quiet workspace;
`RereadFailure` and `MultiEditUnread` say exactly where their atomicity ends, and `OtherWriters`, `RollbackAmongWriters`
and `MultiEditAmongWriters` what a failed one leaves while other writers go on. `FileService` is the service as an
object: its methods have the loops and early exits of the original, and each is proved to change the world exactly as
its specification says, with a sound history at the start and after every call.

**Agent loop and conversation state.** `CommandEvidence`, `Todos`, `PlanState`, `ToolResults` and `Submission` are the
conversation stores and the planning tools; `ToolPolicy`, `Transcript` and `FailureTracker` are the parts of the loop.
`AgentStep` and `AgentRun` say what a call and a whole run do, as functions of the stores they find and of everything
the model, the tools and the stores answer, with a trace of what happened. `AgentCalls`, `AgentTrace`, `AgentSafety` and
`AgentGate` hold the theorems about every run. `AgentLoop` is the runner as an object, whose methods are proved to give
the results, the stores and the trace of that function.

**Session lifecycle.** `Lifecycle` is the mutex-protected state machine under any number of interleaved callers.
`Providers` is the ledger of provider starts and closes, and of the tool names that a session registers.

**Output collector.** `OutputCollector` is the bounded buffer with its spill file, against the plain stream.

`Wrappers` holds `Option` and `Result`.

## What the model assumes

- A file is its content, its permission bits and a version; every write gives a version that was never used before
  (inode and modification time), and content hashes are injective.
- Other writers may change any file or directory between any two steps of a service call. The token check before a
  rename and the rename itself are one step, as are the check before an unlink and the unlink.
- Service calls are sequential, because the agent loop answers its tool calls one at a time.
- The theorems about all-or-nothing outcomes exclude other writers during the call, because rollback restores a file
  without looking at its token, and assume that a file that was renamed into place can be read back for its token.
  `RollbackAmongWriters.RollbackAmongOthers` and `MultiEditAmongWriters.MultiEditAmongOthers` say what a failed
  transaction leaves without the first assumption; `RereadFailure.AtomicUnlessUnread` and
  `MultiEditUnread.MultiEditAtomicUnlessUnread` that it is atomic exactly when the second holds of the last commit.
- Policy decisions, the secret scan, the model, the tools, the reviewer, the clock and every store and system call are
  parameters, quantified over. JSON payloads are typed records. Names resolve to paths by a fixed map.
- Text is a sequence of Unicode characters.

Three statements of `docs/developer-overview.md` differ from the code, and the model follows the code: line 672 says
that quoted patch paths are refused, but internal/files/patch.go:1022-1028 unquotes them; lines 564 and 1378 say that
patch preflight calls `Read` and issues fresh tokens, but internal/files/patch.go:584 reads without issuing any; and
line 1382 says that tokens are compared by path and content hash only, but internal/files/tokens.go:162-169 compares
size, modification time, device and inode as well.

## Model

| member | source | states |
|---|---|---|
| Lines.SplitIsFaithful | internal/files/read.go:187-203 | cutting a text into lines loses nothing and gives non-empty lines of which only the last may lack its newline |
| Lines.SplitOfJoin | internal/files/patch.go:1154-1171 | joining and cutting again gives a line list back exactly when it is well formed |
| Lines.SplitLines | internal/files/read.go:187-203 | the index loop finds the lines of the reference definition |
| LineRanges.SelectLineRange | internal/files/read.go:160-185 | the range selected, with both open ends, and nothing past the last line |
| LineRanges.PartsMakeTheWhole | internal/files/read.go:160-185 | reading up to a line and then from the next one gives the content byte for byte |
| Hunks.MatchBodyIsBlockAt | internal/files/patch.go:960-981 | walking a hunk body over the old lines succeeds exactly when its old block stands at that place, and ends after it |
| Hunks.ApplyPatchHunks | internal/files/patch.go:947-986 | the one-pass interpreter computes the patched content or the first error |
| Hunks.ApplyBody | internal/files/patch.go:960-981 | the loop over one hunk body keeps the new side and stops where the body does not match |
| Hunks.PatchInverse | internal/files/patch.go:922-996 | swapping the sides of the hunks, with starts recomputed and the empty-range convention, restores the original content byte for byte |
| Hunks.InverseOfWhole | internal/files/patch.go:922-996 | the same law on line lists, without the condition on line endings |
| Hunks.HunkComposition | internal/files/patch.go:947-996 | one pass gives a result exactly when the hunks are ordered and applying them one at a time, each shifted by the net change before it, gives that result |
| Hunks.OnePassIsEachFrom | internal/files/patch.go:947-996 | for ordered hunks one pass and one-by-one application also agree on the error |
| Hunks.LineConservation | internal/files/patch.go:947-996 | the result has the old number of lines plus the sum of new minus old counts |
| DiffRoundTrip.PatchRoundTrip | internal/files/patch.go:729-944 | printing patch files and reading the text back gives the same patch files, modes and newline-less lines included |
| DiffRoundTrip.BodyLineIsPlain | internal/files/patch.go:868-900 | a printed body line is never taken for a header, a hunk or a marker, whatever its text |
| DiffRoundTrip.HunkHeaderRoundTrip | internal/files/patch.go:998-1012 | a printed hunk header reads back as its four numbers |
| DiffRoundTrip.DiffHeaderRoundTrip | internal/files/patch.go:1053-1092 | a printed git header reads back as its two path tokens |
| PatchReader.ParseUnifiedPatch | internal/files/patch.go:729-762 | the reader's loops accept, refuse and produce exactly what the grammar says, with the same error |
| PatchReader.ParsePatchFile | internal/files/patch.go:764-847 | one file section, against its grammar |
| PatchReader.ParsePatchHunk | internal/files/patch.go:849-907 | one hunk with its header and body, against its grammar |
| PatchReader.ReadHunkBody | internal/files/patch.go:868-900 | the body loop with the no-newline marker, against its grammar |
| PatchReader.ValidatePatchHunkCounts | internal/files/patch.go:922-945 | counting the sides of a body in a loop decides whether the header is consistent |
| PatchReader.AcceptedPatchIsApplicable | internal/files/patch.go:909-945 | every file of an accepted patch has hunks whose headers count their own lines, as the inverse and composition laws need |
| ExactEdit.ReplaceIsRejoin | internal/files/edit.go:489-562 | replacing all occurrences is joining the same pieces with the new string; their number is the count plus one |
| ExactEdit.ExactEditMeaning | internal/files/edit.go:489-562 | an edit is refused for an empty, absent or ambiguous old string and for nothing else, and an accepted one rejoins the pieces |
| FileService.Service.constructor | internal/files/tokens.go:44-53 | a service begun over any workspace, with an empty registry, has a sound history, which its calls keep |
| NoLostUpdate.ValidatedTwice | internal/files/write.go:129-191 | the version validated before the backup and again before the rename is the one backed up and the one read from, whatever happened in between |
| NoLostUpdate.WriteIsSafe | internal/files/write.go:70-210 | a managed write keeps the history sound for any other writers between its steps |
| NoLostUpdate.DeleteIsSafe | internal/files/delete.go:49-137 | a managed delete does too |
| NoLostUpdate.ReadIsSafe | internal/files/read.go:61-141 | a managed read does too, with or without a token |
| SafeRuns.EditIsSafe | internal/files/edit.go:133-195 | an edit commits only content computed from the bytes it replaces |
| SafeRuns.MultiEditIsSafe | internal/files/edit.go:199-331 | so does a multi-edit, in every group |
| SafeRuns.ApplyPatchIsSafe | internal/files/patch.go:134-315 | so does a patch, though its targets are read while the whole patch is planned |
| SafeRuns.RunsAreSafe | internal/files/write.go:129-191 | over any run of service calls and other writers, every commit over an existing file replaced the version last recorded for it, backed up its bytes, and was computed from them |
| DirectoryRollback.MissingFromMeaning | internal/files/patch.go:317-355 | the missing parents are the absent directories on the way down, shallowest first; they cannot be listed exactly when a file is in the way |
| DirectoryRollback.RemoveDirsUndoes | internal/files/patch.go:357-396 | removing a chain from the deepest up takes away exactly the directories no other create needs |
| AllOrNothing.CommitFileEffect | internal/files/patch.go:624-705 | one commit leaves its file in the new state, or nothing changed, and says which |
| AllOrNothing.CommitPhase | internal/files/patch.go:150-196 | the commits up to the first failure change exactly the flagged files |
| AllOrNothing.RollbackPhase | internal/files/patch.go:231-315 | undoing the flagged entries in reverse restores files, directories and tokens, shared parents included |
| AllOrNothing.PatchIsAllOrNothing | internal/files/patch.go:134-315 | for every pattern of committed, refused and uncertain commits the patch leaves every planned file new, or files, directories and tokens as they were |
| PatchOutcome.ApplyPatchOutcome | internal/files/patch.go:134-196 | from the patch text on: applied means every section's hunks were run over the content that was read, refused means nothing changed |
| RereadFailure.AtomicUnlessUnread | internal/files/write.go:194-198 | a patch of any length that failed, and was rolled back or had nothing to roll back, leaves no trace exactly when its last commit was not a create or modify that landed and could not be read back |
| RereadFailure.RollbackReportedOverChangedFile | internal/files/patch.go:150-196 | two modifies of which the second lands unread: the reply reports a successful rollback, and the second file holds its new content |
| OtherWriters.WriteCommitsOnly | internal/files/write.go:70-210 | a managed write, whatever it meets, leaves every other path, its token and the directories to the other writers, but for parents of its own path; and its own path too unless it committed there |
| OtherWriters.DeleteCommitsOnly | internal/files/delete.go:49-137 | a managed delete does too |
| RollbackAmongWriters.RollbackAmongOthers | internal/files/patch.go:231-315 | a failed patch with other writers acting at any time: a rollback that reports success puts back every file known to be committed; every other path is what the other writers made of it, under its old token, but for a file whose failed commit landed; directories are theirs, but for parents the patch made and parents missing when it began |
| MultiEditFold.FoldIsPerFile | internal/files/edit.go:334-445 | applying edits one by one succeeds exactly when each file's own edits do, and gives each file their result |
| MultiEditOutcome.QuietGrouping | internal/files/edit.go:334-374 | grouping by resolved path keeps, per file, exactly its edits in request order, several names for one file included |
| MultiEditOutcome.RollbackRestores | internal/files/edit.go:297-331 | a rollback that reports success has put every changed file back |
| MultiEditOutcome.MultiEditRefinesFold | internal/files/edit.go:199-331 | a multi-edit gives the files of the one-by-one fold, or nothing changed unless a rollback failed; and when the fold succeeds and no commit is refused it is applied |
| MultiEditUnread.MultiEditAtomicUnlessUnread | internal/files/edit.go:199-331 | a multi-edit that is not applied, unless its rollback failed, leaves no trace exactly when it did not stop at a file that landed and could not be read back |
| MultiEditAmongWriters.MultiEditAmongOthers | internal/files/edit.go:297-331 | a failed multi-edit with other writers acting at any time: a successful rollback puts back every file known to be committed, everything else is what the other writers made of it, but for a file whose failed commit landed |
| FileService.Service.ReadLines | internal/files/read.go:72-141 | range check, policy, read, token for the whole file, selection of lines |
| FileService.Service.ValidateCurrent | internal/files/tokens.go:95-122 | missing, vanished, mismatching or valid token |
| FileService.Service.Write | internal/files/write.go:70-210 | the staged write changes the world exactly as its specification, every early exit included |
| FileService.Service.Commit | internal/files/managed_file_unix.go:33-111 | parents, second validation or no-replace link, rename, and the three outcomes of the commit |
| FileService.Service.Delete | internal/files/delete.go:49-137 | the staged delete with its second validation |
| FileService.Service.PrepareEditFile | internal/files/edit.go:448-486 | resolving, validating and loading an edit target |
| FileService.Service.Edit | internal/files/edit.go:133-195 | one edit committed through the managed overwrite |
| FileService.Service.GroupEditRequests | internal/files/edit.go:334-374 | the loop with its index map builds the specified groups |
| FileService.Service.ApplyEditGroup | internal/files/edit.go:377-445 | the edits of one file in a loop, and at most one overwrite |
| FileService.Service.RollbackMultiEdit | internal/files/edit.go:297-331 | the backwards loop over committed entries, going on after a failure |
| FileService.Service.MultiEdit | internal/files/edit.go:199-269 | grouping, snapshots, groups in order, rollback |
| FileService.Service.PlanPatch | internal/files/patch.go:403-436 | planning in order; two entries for one resolved path are refused |
| FileService.Service.PlanPatchFile | internal/files/patch.go:438-548 | create, modify and delete with their refusals |
| FileService.Service.ReadPatchTarget | internal/files/patch.go:550-602 | a valid token is demanded, and the read issues none |
| FileService.Service.MissingParentDirs | internal/files/patch.go:317-355 | the upward loop and the reversal give the specified chain |
| FileService.Service.PreparePatchRollback | internal/files/patch.go:198-229 | the snapshots of all planned files, before the first commit |
| FileService.Service.RemoveCreatedParentDirs | internal/files/patch.go:357-396 | the backwards loop over made directories |
| FileService.Service.RollbackPatchEntry | internal/files/patch.go:273-315 | restoring a file with its token, or removing a created one with its parents |
| FileService.Service.RollbackPatch | internal/files/patch.go:231-262 | the backwards loop over committed entries, stopping at the first failure, and the number undone |
| FileService.Service.CommitPlan | internal/files/patch.go:150-196 | commits in order with per-entry flags, rollback on the first failure |
| FileService.Service.ApplyPatch | internal/files/patch.go:134-196 | the whole transaction from the text on |
| CommandEvidence.Manager.Append | internal/conversation/command_evidence.go:86-97 | the new record has the next revision |
| CommandEvidence.Manager.RecordReview | internal/conversation/command_evidence.go:100-116 | the review is kept and a verdict that is not sufficient counts as an attempt |
| CommandEvidence.Manager.RecordPlanBaseline | internal/conversation/command_evidence.go:131-144 | the baseline is the largest revision, mutation marks and attempts are gone |
| CommandEvidence.Manager.RecordWorkspaceMutation | internal/conversation/command_evidence.go:148-166 | the mutation mark is the largest revision, attempts are gone |
| CommandEvidence.AssignMissingRevisions | internal/conversation/command_evidence.go:251-261 | the in-place loop numbers exactly the records without a revision, in order |
| CommandEvidence.SelectReviewCommands | internal/builtintools/planningtools/submit_plan_implementation.go:194-231 | the loops select the last twenty reviewable records |
| CommandEvidence.EvidenceWindow | internal/builtintools/planningtools/submit_plan_implementation.go:194-231 | from empty evidence, over any run, the reviewer sees exactly the last at most twenty commands since the latest baseline, mutation or clear |
| CommandEvidence.RevisionsStayDistinct | internal/conversation/command_evidence.go:86-171 | positive revisions stay distinct over any run, from any evidence in which they are |
| CommandEvidence.AssignedRevisions | internal/conversation/command_evidence.go:251-261 | afterwards every record has a positive revision, its own or a fresh one, and all differ |
| Todos.NormalizeTodos | internal/conversation/todos.go:106-132 | the loop accepts exactly the lists that are valid once trimmed, and returns them trimmed |
| Todos.StoredReadsBack | internal/conversation/todos.go:46-81 | an accepted list, written to the store's records and read back with their fallbacks, is the normalized list |
| Todos.ReadTodos | internal/conversation/todos.go:46-66 | the loop over the stored records reads back what the reference definition reads |
| PlanState.PlanWriteIsAtomicIff | internal/conversation/state.go:45-78 | writing a plan with its todos is all or nothing exactly when they are refused, the stores do not tear the write, or it stores what is there already |
| PlanState.CompletionIsAtomicIff | internal/conversation/state.go:95-118 | clearing them is all or nothing exactly when the stores do not tear it or there was nothing to clear |
| PlanState.ConversationState.WritePlanAndTodos | internal/conversation/state.go:45-78 | the ordered writes with compensation, for every pattern of refused writes |
| PlanState.ConversationState.CompletePlanImplementation | internal/conversation/state.go:95-118 | the ordered clears with compensation, for every pattern of refused writes |
| Submission.ExecuteWritePlan | internal/builtintools/planningtools/write_plan.go:49-93 | the checks in order, then the combined write |
| Submission.ExecuteWriteTodos | internal/builtintools/planningtools/write_todos.go:44-69 | decoding, then replacement |
| Submission.ExecuteSubmit | internal/builtintools/planningtools/submit_plan_implementation.go:47-131 | todos, review, decision, completion |
| Submission.SubmissionMeaning | internal/conversation/command_evidence.go:174-219 | acceptance implies completed todos and clears everything; a block by the reviewer happens only at zero attempts and leaves one |
| Submission.BlockedOncePerReset | internal/builtintools/planningtools/submit_plan_implementation.go:69-130 | between two blocks by the reviewer something has reset the attempts |
| Submission.NextSubmissionIsAccepted | internal/builtintools/planningtools/submit_plan_implementation.go:69-130 | after a block and no reset, the next submission with completed todos is accepted and clears plan, todos and attempts |
| ToolPolicy.PlanModeAllowsIff | internal/agent/mode.go:224-263 | plan mode allows a tool exactly when it declares no workspace mutation, shell or network, mutates host state only if plan-safe, and is plan-safe or declares something harmless under a harmless name |
| ToolPolicy.FilterTools | internal/agent/mode.go:148-171 | the loops expose exactly the allowed tools, in order |
| ToolPolicy.FindTool | internal/agent/runner_tools.go:162-169 | the first entry of a name |
| ToolPolicy.ExposedIsCallableIff | internal/agent/mode.go:148-189 | the tools exposed are exactly those whose calls are let through, if and only if the first entry of every allowed entry's name is allowed |
| Providers.RegisteredIsUnique | pkg/falken/session_tools.go:196-205 | whatever a provider lists, the registered tools keep distinct keys |
| Providers.InSessionExposedIsCallable | pkg/falken/session_tools.go:54-121 | so in a started session the tools exposed are exactly those whose calls are let through, in every mode |
| Transcript.SanitizeToolCalls | internal/agent/runner_tools.go:148-160 | the in-place loop replaces blank and malformed arguments and nothing else |
| Transcript.EveryCallIsAnswered | internal/agent/runner.go:139-189 | in a history with nothing unanswered, each call of each assistant message has its answer, in order and before anything else |
| Transcript.RoundIsAnswered | internal/agent/runner.go:139-189 | an assistant message followed by results with its call ids leaves nothing unanswered |
| FailureTracker.Tracker.Record | internal/agent/runner_failures.go:40-76 | the count is the length of the block of the same failure that ends the results recorded so far |
| FailureTracker.TrailingBlockIsMaximal | internal/agent/runner_failures.go:40-76 | that block is maximal, and empty after a success |
| AgentCalls.RefusedCallIsInert | internal/agent/runner_tools.go:54-92 | a call refused by name or mode runs nothing and changes nothing, and its answer does not depend on anything its tool might have done |
| AgentCalls.PlanModeRunsOnlyHarmless | internal/agent/runner_tools.go:66-84 | in plan mode, if a tool has any influence on the answer or the conversation, it declares no workspace mutation, shell or network |
| AgentCalls.PlanToolKeeps | internal/agent/runner_submission.go:51-75 | a plan write answers ready only with a valid plan and valid todos stored, and otherwise leaves them unless the stores tear it |
| AgentCalls.PlanWriteIsGateSafeIff | internal/conversation/state.go:45-78 | from a conversation with nothing under way, a plan write reports success or leaves nothing behind exactly when its arguments are refused or the stores do not tear it |
| AgentCalls.SubmitToolKeeps | internal/agent/runner_submission.go:37-49 | an accepted submission has cleared plan and todos, and a submission never brings any back, however the stores tear it |
| AgentCalls.ModeLeavesOnlyWithPlan | internal/agent/runner.go:188-192 | a call leaves the mode alone, or ends plan mode with a valid plan and valid todos in store |
| AgentTrace.AnswerOneKeeps | internal/agent/runner.go:176-218 | one call: its answer is stored in turn, with a warning from the second identical failure on, and the guard trips on the third and on nothing else |
| AgentSafety.AnswerAllKeeps | internal/agent/runner.go:172-218 | a round, by induction over its calls, for every point at which a store or the guard may end it |
| AgentSafety.AskingKeeps | internal/agent/runner_routing.go:103-105 | a request is the messages stored so far, at most one checkpoint, and the current mode, with every call answered and the tools the mode allows |
| AgentSafety.NudgeDrops | internal/agent/runner_todos.go:38-47 | dropping the trailing checkpoint gives the stored messages back |
| AgentSafety.EveryRunIsSound | internal/agent/runner.go:84-231 | for every model, tools and stores: the history is the prepared messages and then the run's own, each call answered in turn by its tool's result; every request shows a prefix of that history, as above, and there is at most one more than the rounds; only allowed tools run; plan mode is left once at most, with plan and todos stored; the third identical failure ends the run and no earlier one; at most one submission nudge; a completed run has answered everything and returns the last text it stored |
| AgentGate.PlanWriteKeepsGateIff | internal/agent/runner.go:193-198 | after an accepted submission in plan mode, a plan write keeps "accepted implies cleared" exactly when its arguments are refused or the stores do not tear it |
| AgentGate.CompletedRunHasCleared | internal/agent/runner.go:148-171 | a completed run leaves no active plan and no todos, unless it ran a plan write that the stores left half done |
| AgentGate.RunIsBounded | internal/agent/runner.go:130-140 | nothing the model would answer beyond the round limit, and no call beyond it, has any part in a run |
| AgentGate.PreparedMeaning | internal/agent/history.go:147-196 | a run starts with its own system prompt, one only, keeps the other old messages and ends with the user's prompt; preparing again replaces the system prompt |
| AgentLoop.Runner.PrepareRun | internal/agent/history.go:147-196 | the old history with the system prompt refreshed and the user's prompt behind, compacted, is stored and returned; or nothing changes |
| AgentLoop.Runner.RoutePreparedMessages | internal/agent/runner_routing.go:46-70 | plan mode is entered only from default mode with nothing under way, and a blank plan becomes the starter text |
| AgentLoop.Runner.ExecuteTool | internal/agent/runner_tools.go:79-84 | a tool of the called name that the mode allows runs, and the trace says so |
| AgentLoop.Runner.HandleToolCall | internal/agent/runner_tools.go:54-92 | the answer, the conversation and whether a tool ran are those of the checks in order, for every call |
| AgentLoop.Runner.ExecuteAndTrack | internal/agent/runner.go:176-182 | the tracker has recorded exactly the results of the run, in order, and the warning follows the length of their last block |
| AgentLoop.Runner.AnswerCall | internal/agent/runner.go:176-218 | one call: execution, failure count, stored answer, mode exit, flags, evidence |
| AgentLoop.Runner.HandleRound | internal/agent/runner.go:172-218 | the loop over a round gives the stores, flags, trace and failure of answering its calls in order |
| AgentLoop.Runner.Finish | internal/agent/runner.go:148-171 | no calls: completion, or one submission nudge, or failure |
| AgentLoop.Runner.Turn | internal/agent/runner.go:104-230 | one pass of the loop, every early exit included |
| AgentLoop.Runner.Run | internal/agent/runner.go:84-231 | result, stores and trace are those of the run of which the theorems speak, from the state and the mode it finds; it is sound, and completion means no plan and no todos unless the run tore a plan write; failing reads and failing writes of the stores end it at their places |
| Lifecycle.SessionObject.AcquireStart | pkg/falken/session_lifecycle.go:200-232 | a start is granted exactly when the sequential protocol lets one begin, and begins it; any other answer changes nothing |
| Lifecycle.SessionObject.FinishStart | pkg/falken/session_lifecycle.go:233-350 | a start that was granted ends as the protocol says, ready or unstarted again, and is never told that it finds another state |
| Lifecycle.SessionObject.AcquireRun | pkg/falken/session_lifecycle.go:361-386 | a run is granted exactly when the protocol lets one begin, so only while started and idle; any other answer changes nothing |
| Lifecycle.SessionObject.AcquireClose | pkg/falken/session_lifecycle.go:443-468 | closing is granted exactly when the protocol lets it begin, and an unstarted session is closed at once; any other answer changes nothing |
| Lifecycle.StepKeeps | pkg/falken/session_lifecycle.go:200-487 | every critical section by any caller keeps the session and its callers consistent |
| Lifecycle.EveryInterleavingIsSafe | pkg/falken/session_lifecycle.go:361-487 | over all interleavings: an active run implies started, at most one caller starts, runs or closes, and the events form a sequential history |
| Lifecycle.NothingOverlaps | pkg/falken/session_lifecycle.go:361-487 | a run that began has ended before anything else begins, closing never overlaps a run or a reset, and nothing follows a close |
| Lifecycle.UnknownStateIsUnreachable | pkg/falken/session_lifecycle.go:334-338 | no caller that finishes a start finds the session in another state |
| Providers.Hub.Start | pkg/falken/session_tools.go:54-121 | the nested loops start providers in order, and after a failure either close what was started in reverse or leave it to the session |
| Providers.Hub.Close | pkg/falken/session_tools.go:182-194 | the backwards loop closes each started provider once and forgets them |
| Providers.SessionProviders.Start | pkg/falken/session_lifecycle.go:282-332 | both hubs started, or everything that started closed again, whatever step failed |
| Providers.SessionProviders.Close | pkg/falken/session_lifecycle.go:491-514 | hooks closed before tools, each in reverse |
| Providers.StartsAndClosesBalance | pkg/falken/session_lifecycle.go:282-332 | over any sequence of failed, retried and successful starts and closes, every provider at rest in new or closed has as many closes as starts, and in started exactly one fewer |
| Providers.FailedStartClosesInReverse | pkg/falken/session_hooks.go:84-137 | in a failed start each hub closes exactly its started providers, once each and in reverse, even when it had cleaned up itself |
| OutputCollector.Collector.Write | internal/runtimeexec/output.go:114-145 | any chunk is taken whole, and buffer and artifact stay in step with the stream |
| OutputCollector.Collector.TakeSnapshot | internal/runtimeexec/output.go:147-170 | a successful snapshot has the first bytes up to the limit, is truncated exactly beyond it, and has an artifact exactly then, equal to the stream |
| OutputCollector.CommandOutput.WriteCombined | internal/runtimeexec/executor.go:229-245 | a writer's second step keeps both streams inside the combined one, whoever came in between |
| OutputCollector.CommandOutput.Result | internal/runtimeexec/output.go:65-78 | the combined output is an order-preserving interleaving of the two streams |
| OutputCollector.InterleavingConserves | internal/runtimeexec/executor.go:229-245 | an interleaving has exactly the bytes of its two streams |

## Left out

- Fuzzy matching of edits (internal/files/edit.go:597-673): it rests on a regular-expression and a distance library; the exact strategy is modelled.
- Unquoting of quoted patch paths and lexical path cleaning are library functions, passed in as parameters; the printer uses plain path tokens.
- Symbolic links, temporary names, fsync and the system calls of a commit are represented by its outcomes: done, refused cleanly, uncertain, or done with a failing re-read.
- Permission bits changed by other writers are not seen by tokens, in the code and in the model.
- Result records of the file service carry only the status, the commit flags and the rollback verdict; paths, summaries, replacement counts and error texts are not modelled.
- Workspace.Write: the basis of a commit and the history are specification only; the original keeps neither.
- CommandEvidence.Manager.Append: revisions are unbounded integers, the original's are 64 bits wide.
- ToolPolicy.PlanModeAllowsIff: letter case is a parameter, so the statement holds for any case mapping, Unicode's included.
- AgentLoop.Runner.Run: streaming and events are not modelled; a cancelled context shows as a failing model, tool or store, and a failing read of the history, the memory or the evidence as a failing write of the same step.
- The check of a plan's Markdown sections is a predicate passed in; what a failure key consists of beyond name, status and text is an opaque fingerprint.
- Memory, prompts, plan routing heuristics, the reviewer's prompt, event adapters and tool schemas: strings and plumbing.
- The session's runtime provider, metadata and project permissions are one success flag of a start; sandboxing, networking, background processes, glob and grep are not modelled.
