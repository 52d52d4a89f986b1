# Support agent lab: a model of its multi-step protocols

The repository runs a customer-support agent behind an API, with an operator console in front of it. Most of
what can go wrong there does so between requests, so this project models the protocols that span them and
proves what they keep over every run and every interleaving.

| file | what it models |
|---|---|
| `event_store.dfy`, `store_history.dfy` | the tables retention may delete from, the retention policy, and how rows change over time |
| `retention_guard.dfy`, `retention_safety.dfy`, `retention_provenance.dfy`, `retention_witnesses.dfy` | backup, restore drill, dry-run preview and guarded apply, interleaved with all other traffic on the store |
| `operation_token.dfy` | the signed tokens that link those steps: base64url, padding, the three-way split |
| `promotion_gate.dfy`, `promotion_evidence.dfy`, `slo_report.dfy`, `rounding.dfy` | the go-live gate, its fingerprint, and the SLO objectives over the same readings |
| `promotion_log.dfy`, `promotion_safety.dfy`, `promotion_ruling.dfy` | preflights and decisions over one append-only log |
| `conversation.dfy`, `conversation_safety.dfy`, `conversation_turns.dfy` | conversation memory as a cache of the event log, across awaits, restarts and retention |
| `feedback_review.dfy`, `feedback_console.dfy` | the server's compare-and-append of feedback reviews, the console fingerprint it compares with, and the review panel whose loads, submissions and refreshes are answered in any order |
| `snapshot_loader.dfy` | numbered snapshot requests with replies in any order, and the freshness that gates changes |
| `stable_sort.dfy`, `alert_queue.dfy`, `timeline.dfy` | filtered and sorted alert queues, the difference of two queues, and the incident timeline |
| `text.dfy`, `signing.dfy` | trimming and splitting in both languages, canonical role and scope lists, the strings that are signed |
| `query_string.dfy`, `console_state.dfy` | form-encoded text and the console's URL state |
| `trace_context.dfy` | reading and making W3C `traceparent` values |
| `staging_gate.dfy` | suite eval records and the staging gate that aggregates them |
| `wrappers.dfy` | `Option`, shared by all |

Code that changes things step by step is a class or a method with a loop, proved equal to a function of the old
state; the theorems are then about those functions and about runs of them. Objects: `SQLiteEventStore`,
`SupportAgentOrchestrator`, `PromotionHandlers`, `FeedbackReviewPanel`, `SnapshotPanel`, `UrlSearchParams`.

## What the code does not keep

Where a promise turns out to hold only under a condition, the condition is proved exact.

- A retention apply also clears expired request nonces, which no high-water mark covers. A nonce reserved after the
  backup was copied is deleted without being in it (`NonceEscapesBackup`); everything deleted is in the backup exactly
  when every expired nonce was reserved before the copy (`BackupCoversNoncesIff`).
- For the same reason a nonce can be deleted that the preview did not announce (`PreviewCoversNoncesIff`), and a used
  preview passes the report check again exactly when the marked candidates are those previewed and as many nonces have
  expired (`UsedPreviewMatchesIff`). A nonce reserved already expired makes this happen (`UsedPreviewCanReturn`); in a run
  without one, everything deleted was announced and a used preview is refused for good (`UsedPreviewIsRejected`).
- The event store deletes rows at the cutoff itself, not only before it, and it frees the rowids of deleted rows for
  reuse. The marks still identify the rows (`MarksIdentifyRows`).
- A conversation with the empty identifier is accepted and logged but can never be hydrated again
  (`UnpurgedRestartRebuilds`). After event retention, a restart rebuilds what was loaded exactly when the log still holds
  every loaded message and the identifier is not empty (`RestartRebuilds`). Hydration
  fails with a value error exactly when events are left and the identifier is empty or all of them are runs
  (`HydrationFailsIff`).
- Of the promotion decision's checks, the second blocked check and the identifier and tenant checks can never fire
  (`ChecksThatNeverFire`).
- With a negative target, a breached objective can report a full budget (`NegativeTargetKeepsBudget`); the endpoint
  accepts no negative target, and for those it accepts the budget is zero (`BreachedRateBudget`).
- The review trail is cut at fifty reviews, so the console's fingerprint is that of the longer prefix exactly when the
  trail was not cut or the queue row is at least as new (`FingerprintIsLongerPrefix`). From fifty-one reviews on, a
  review is refused though nobody appended, until the queue row is read again (`CutTrailIsRefused`).
- An accepted failure with an empty message leaves the console able to change things (`EmptyFailureKeepsMutation`);
  `loading` also holds before the first request (`LoadingIff`).
- By count or by newest the alert queue depends on the order of its input (`CountOrderIsNotCanonical`); in every mode it
  does so exactly when two different alerts that pass compare as equal (`QueueIsCanonicalIff`).
- The gateway trims the byte order mark and the server does not (`ByteOrderMarkChangesClaims`); a header that is blank
  without being empty has an empty canonical form, for which the server takes its default. `CanonicalKeepsItems` gives
  the exact condition for every header: no mark is cut off any part, and the header is not blank or the default is.
- The refresh after a review conflict is not gated by the request number, so it can put the trail of one feedback on
  screen after another was opened (`RefreshCanShowAnother`). With nothing further opened or submitted, this can happen
  exactly while a submission for another feedback is unanswered, or refused and not refreshed (`CanStrayIff`). No stale
  review is accepted for it (`AcceptedIffAllSeen`).
- The timeline depends on the order its sources are read in exactly when two different entries share their key, or their
  time, sequence and type (`SourceOrderMattersIff`).

## Model

| member | source | states |
|---|---|---|
| `EventStore.RetentionParams` | src/support_agent_lab/api/main.py:4827-4841 | whatever validated request and settings are combined, each window is the request's own or else the setting of its name, and at least one day |
| `EventStore.SQLiteEventStore.RetentionTableReport` | src/support_agent_lab/memory/event_store.py:3838-3866 | one table's candidates are counted and, unless dry, exactly they are removed |
| `EventStore.SQLiteEventStore.ApplyRetentionPolicy` | src/support_agent_lab/memory/event_store.py:2404-2533 | a row goes exactly when it has outlived its own table's window: an outbox row only once it is terminal, an event only with events included; a dry run removes nothing, and the totals count both |
| `EventStore.ReportCounts` | src/support_agent_lab/memory/event_store.py:2430-2513 | each table's report counts the rows due by its window and says what becomes of them |
| `EventStore.MarkMeans` | src/support_agent_lab/memory/event_store.py:3882-3903 | every table but the nonces has a mark: row count, largest rowid, latest stamp |
| `StoreHistory.StepOrdinary` | src/support_agent_lab/memory/event_store.py:1086-2224 | inserts, updates of one row or a batch, key releases, reserved and refused nonces keep every earlier state an earlier state: no old row version returns, and every newer marked row would move a mark |
| `StoreHistory.StepTouch` | src/support_agent_lab/memory/event_store.py:1086-1143 | a batch of rows stamped with one instant by one update keeps it too |
| `StoreHistory.UpdatedCount` | src/support_agent_lab/memory/event_store.py:1117-1137 | such an update merges no two rows and loses none |
| `StoreHistory.StepApply` | src/support_agent_lab/memory/event_store.py:2404-2533 | a retention apply keeps them too, because no window is shorter than a day |
| `StoreHistory.MarksIdentifyRows` | src/support_agent_lab/memory/event_store.py:2360-2402 | a store and a later one have equal high-water marks exactly when they hold the same row versions in all marked tables, batch updates included |
| `StoreHistory.SameInstantUpdateIsInvisible` | src/support_agent_lab/memory/event_store.py:3882-3903 | an in-place update that leaves the timestamp as it was moves no mark |
| `RetentionGuard.DbStepKeepsPast` | src/support_agent_lab/memory/event_store.py:3882-3903 | no store step brings a row version back |
| `RetentionGuard.BackupCopyKeepsInv` | src/support_agent_lab/api/main.py:7135-7139 | overwriting a backup path keeps every surviving drilled row in the file |
| `RetentionSafety.NextKeepsInv` | src/support_agent_lab/api/main.py:7109-7412 | every step of the protocol keeps the invariant that ties tokens, files and pending requests to past states of the store |
| `RetentionSafety.SameMarksIffSameRows` | src/support_agent_lab/memory/event_store.py:2360-2402 | two moments of one run have equal high-water marks exactly when they hold the same row versions in all marked tables |
| `RetentionSafety.AcceptedRequestHasStep` | src/support_agent_lab/api/main.py:5226-5305 | in every run, a request that passes the token and mark checks has a step, the drill and preview behind its tokens included |
| `RetentionProvenance.PassesIff` | src/support_agent_lab/api/main.py:5226-5296 | a request passes exactly when it is confirmed and its three tokens are signed here, of this operator and tenant, verified, healthy, and fit together |
| `RetentionProvenance.GuardGoesOnIff` | src/support_agent_lab/api/main.py:5226-5305 | in every state of every run, exactly which requests the guard takes to its report check, field by field |
| `RetentionProvenance.DeleteGoesBack` | src/support_agent_lab/api/main.py:7109-7412 | behind every guarded delete of a run there are, in order, one operator's backup copy and signature, the drill of that very token, the preview of the requested parameters, and a confirmed request, all of this tenant |
| `RetentionProvenance.DeletesTheOutlived` | src/support_agent_lab/memory/event_store.py:2420-2496 | in every run a guarded delete removes exactly the rows that had outlived their window at the previewed time, table by table |
| `RetentionProvenance.DeliveryIsNotLost` | src/support_agent_lab/memory/event_store.py:2463-2473 | in every run, no alert delivery leaves the store before it has come to its end |
| `RetentionSafety.RetentionSafety` | src/support_agent_lab/api/main.py:7354-7385 | in every run, every marked row a guarded apply deletes is in the file of the bound backup, was a candidate of the bound preview, and was written before it |
| `RetentionSafety.BackupIsCompleteAtMarkCheck` | src/support_agent_lab/api/main.py:5298-5305 | the drill closes the gap between copying and marking: at the guard's mark check the whole marked store is in the backup |
| `RetentionSafety.MatchingReportSameCandidates` | src/support_agent_lab/api/main.py:5072-5102 | equal report fingerprints mean the same candidate rows, not only equal counts |
| `RetentionSafety.ReportMatchesIff` | src/support_agent_lab/api/main.py:5072-5102 | a later store passes the report check exactly when it holds the marked candidates of the previewed one and as many expired nonces |
| `RetentionSafety.AnnouncedSurvivesToCheck` | src/support_agent_lab/api/main.py:5306-5331 | when the report check passes, nothing the preview announced has gone |
| `RetentionSafety.DeletesWhatIsLeftOfAnnounced` | src/support_agent_lab/api/main.py:7369-7379 | a guarded delete removes the announced rows that are left and no other marked row |
| `RetentionSafety.DeletedSetIsAnnouncedSet` | src/support_agent_lab/api/main.py:7362-7379 | with no other apply between report check and delete, and no update or release of an announced row, the deleted set is the previewed set |
| `RetentionSafety.SparedRowsStay` | src/support_agent_lab/memory/event_store.py:3177-3215 | ticks, inserts, reserved and refused nonces, updates and releases of other rows, and every other protocol step remove no announced row |
| `RetentionSafety.UsedPreviewIsRejected` | src/support_agent_lab/api/main.py:5327-5331 | a preview under which an apply deleted a row is refused in every later state: always for a row of a marked table, and for a nonce in runs in which none is reserved already expired |
| `RetentionSafety.UsedPreviewMatchesIff` | src/support_agent_lab/api/main.py:5327-5331 | in every run, exactly when a later state passes the report check of a preview that was applied |
| `RetentionWitnesses.UsedPreviewCanReturn` | src/support_agent_lab/memory/event_store.py:2065-2089 | a reachable state in which an apply deletes a nonce reserved already expired, and its preview passes the report check again |
| `RetentionSafety.PreviewCoversNoncesIff` | src/support_agent_lab/memory/event_store.py:2404-2438 | nonces included, everything deleted was announced exactly when every expired nonce was reserved before the preview |
| `RetentionSafety.AllDeletedWasAnnounced` | src/support_agent_lab/api/request_signature.py:69-141 | in runs that reserve no nonce already expired, every deleted row, nonces included, was announced by the bound preview and written before it |
| `RetentionSafety.BackupCoversNoncesIff` | src/support_agent_lab/memory/event_store.py:2404-2438 | nonces included, everything deleted is in the backup exactly when every expired nonce was reserved before the copy |
| `RetentionWitnesses.NonceEscapesBackup` | src/support_agent_lab/memory/event_store.py:2360-2402 | a reachable state in which a guarded apply deletes a nonce that is in no backup |
| `OperationToken.FromToSextets` | src/support_agent_lab/api/main.py:5015-5022 | regrouping bytes into sextets and back is the identity on all byte strings |
| `OperationToken.SameNumber` | src/support_agent_lab/api/main.py:5015-5022 | four sextets are the same number as their three bytes |
| `OperationToken.LetterIs` | src/support_agent_lab/api/main.py:5015-5022 | each sextet has its letter of the URL-safe alphabet (Table 2 of RFC 4648) |
| `OperationToken.Vectors` | src/support_agent_lab/api/main.py:5015-5022 | the first test vectors of section 10 of RFC 4648 |
| `OperationToken.PaddingRoundTrip` | src/support_agent_lab/api/main.py:5015-5061 | stripped base64url is never 1 modulo 4 long, `-len % 4` characters restore exactly the stripped padding, and decoding returns the bytes |
| `OperationToken.SplitJoin` | src/support_agent_lab/api/main.py:5049-5052 | splitting a token at its first two dots recovers prefix, body and signature, whatever the signature holds |
| `OperationToken.JoinSplit` | src/support_agent_lab/api/main.py:5049-5052 | only a token of three parts splits, into dot-free prefix and body |
| `OperationToken.AcceptedIffSigned` | src/support_agent_lab/api/main.py:5038-5069 | a token is accepted exactly when it is this server's signature over a body that decodes to a payload of the expected kind |
| `OperationToken.DecodeSigned` | src/support_agent_lab/api/main.py:5025-5069 | decoding a signed token returns exactly its payload for its own kind, and nothing for any other |
| `Rounding.ThousandthsMonotone` | src/support_agent_lab/api/main.py:3902-3905 | rounding an age to thousandths keeps order |
| `Rounding.RoundEvenIsNearest` | src/support_agent_lab/api/main.py:3902-3905 | no integer is nearer, and of two as near it is the even one |
| `PromotionGate.StatusIsWorst` | src/support_agent_lab/api/main.py:2535-2540 | the overall status is the worst status of any check |
| `PromotionGate.OrderIrrelevant` | src/support_agent_lab/api/main.py:2535-2540 | the order of the checks does not matter |
| `PromotionEvidence.AlertVerdict` | src/support_agent_lab/api/main.py:2375-2413 | the alert check is blocked exactly when the counts under P0 and P1, zero where missing, add up to more than the limit |
| `PromotionEvidence.OtherSeveritiesDoNotCount` | src/support_agent_lab/api/main.py:2380-2382 | counts under other severities never move it |
| `PromotionEvidence.StaleIff` | src/support_agent_lab/api/main.py:3902-3905 | an evaluation counts as too old exactly once it is 1.8 seconds past its limit, because its age is rounded |
| `PromotionEvidence.GateVerdict` | src/support_agent_lab/api/main.py:2340-2540 | the whole gate's status in the readings' own figures: blocked, warning or passed, each exactly when |
| `PromotionGate.EvalMonotone` | src/support_agent_lab/api/main.py:2492-2532 | an older or missing evaluation, or a tighter age limit, never improves the eval check |
| `PromotionGate.WorseChecksNoReadier` | src/support_agent_lab/api/main.py:2340-2373 | checks that each get no better, from passed to skipped to failed, make a readiness reading no better |
| `PromotionGate.GateMonotone` | src/support_agent_lab/api/main.py:2340-2540 | with sample counts fixed, worse readings (a skipped readiness check that starts to fail among them), a later moment or tighter maxima never improve the gate |
| `PromotionGate.FingerprintDetermines` | src/support_agent_lab/api/main.py:2543-2593 | equal fingerprints force equal status, thresholds, source, window, readiness and per-check statuses |
| `PromotionEvidence.SameFingerprintIff` | src/support_agent_lab/api/main.py:2543-2593 | two gates have the same fingerprint exactly when environment, window, thresholds and everything read are the same and the evaluation is on the same side of its age limit |
| `PromotionGate.FingerprintIgnoresTime` | src/support_agent_lab/api/main.py:2543-2593 | on unchanged readings, time moves the fingerprint exactly when the evaluation has crossed its age limit |
| `SloReport.ThinEvidenceAgrees` | src/support_agent_lab/api/main.py:2418-2489 | tool and feedback checks warn exactly when their objective has no data, and block exactly when it is breached |
| `SloReport.BlockedIff` | src/support_agent_lab/api/main.py:1084-1149 | the gate is blocked exactly when readiness failed, one of the four shared objectives is breached, or there is no evaluation |
| `SloReport.HealthyReportBlocksOnlyOnReadiness` | src/support_agent_lab/api/main.py:1310-1317 | under a healthy report only readiness can block the gate |
| `SloReport.RateObjectiveIs` | src/support_agent_lab/api/main.py:1042-1081 | a maximum-rate objective's status by its figures: no data, breached, at risk below a quarter of the target left, or met |
| `SloReport.CountObjectiveIs` | src/support_agent_lab/api/main.py:1084-1108 | the same for maximum counts |
| `SloReport.EvalObjectiveIs` | src/support_agent_lab/api/main.py:1110-1149 | the evaluation objective by the record and its age |
| `SloReport.ReportStatusIs` | src/support_agent_lab/api/main.py:1310-1317 | breached when some objective is, unknown when none can be judged, healthy when there are some and all are met |
| `SloReport.BreachedRateBudget` | src/support_agent_lab/api/main.py:1042-1081 | a breached maximum-rate objective reports no budget exactly when the rate is positive, which it is for every accepted target |
| `SloReport.BreachedCountBudget` | src/support_agent_lab/api/main.py:1084-1108 | the same for maximum counts |
| `SloReport.NegativeTargetKeepsBudget` | src/support_agent_lab/api/main.py:1042-1081 | a negative target can be breached with a full budget |
| `PromotionLog.PromotionHandlers.FindPreflight` | src/support_agent_lab/api/main.py:2636-2650 | the newest preflight of an identifier and tenant is found |
| `PromotionLog.PromotionHandlers.RecordPreflight` | src/support_agent_lab/api/main.py:5677-5731 | the log grows by exactly the accepted preflight and by nothing when the request is refused |
| `PromotionLog.PromotionHandlers.RecordDecision` | src/support_agent_lab/api/main.py:5754-5843 | the log grows by exactly the accepted decision and by nothing when the request is refused |
| `PromotionSafety.ConfirmMeans` | src/support_agent_lab/api/main.py:5791-5836 | a confirmed decision shares fingerprint, status, thresholds, source, window and readiness with its preflight, and approving a blocked gate needs an override with a reason |
| `PromotionSafety.NextKeepsInv` | src/support_agent_lab/api/main.py:5677-5843 | every request keeps the log's invariant |
| `PromotionSafety.EveryDecisionIsBoundOnce` | src/support_agent_lab/api/main.py:2666-2700 | in every run each decision has exactly one matching, earlier, unexpired preflight, which no other decision is bound to |
| `PromotionRuling.RulingRecordsTheRequest` | src/support_agent_lab/api/main.py:5821-5843 | in every run a ruling appends nothing, or one decision with the verdict, trimmed note, override, trimmed reason, version, operator and time that were asked for |
| `PromotionRuling.RulingRecordsIff` | src/support_agent_lab/api/main.py:5766-5820 | and it appends one exactly when it is well formed and names an own, matching, unexpired preflight not ruled on, with unchanged evidence, a blocked one only approved with the override |
| `PromotionRuling.PreflightRecordsTheRequest` | src/support_agent_lab/api/main.py:5690-5731 | a preflight request leaves exactly its own record, or nothing when it lacks a version or the two readiness flags |
| `PromotionRuling.EveryRecordWasAskedFor` | src/support_agent_lab/api/main.py:5677-5843 | every preflight and decision in the log of a run is, field by field, the request of one of its steps |
| `PromotionSafety.ChecksThatNeverFire` | src/support_agent_lab/api/main.py:5811-5820 | the live blocked check, and the identifier and tenant checks, never refuse anything |
| `PromotionSafety.SingleUse` | src/support_agent_lab/api/main.py:2653-2693 | once used, a preflight is refused forever |
| `PromotionSafety.FreshPreflightCanBeRuled` | src/support_agent_lab/api/main.py:5754-5843 | a fresh preflight on unchanged readings is accepted for any well-formed ruling, unless it approves a blocked gate without the override |
| `Conversation.ReplayConversationMemory` | src/support_agent_lab/memory/replay.py:19-63 | the replay loop computes the fold of the events, stopping at the first one that raises |
| `ConversationTurns.ReplayIff` | src/support_agent_lab/memory/replay.py:19-81 | replay accepts exactly the non-empty lists of a named conversation whose events fit it and their payloads, with messages, all of one tenant and user, and builds the state of these messages |
| `Conversation.SupportAgentOrchestrator.HydrateMemoryFromEvents` | src/support_agent_lab/agent/orchestrator.py:368-399 | hydration loads the replayed state or changes nothing |
| `Conversation.SupportAgentOrchestrator.Remember` | src/support_agent_lab/memory/store.py:42-60 | a message is appended to its owner's state, and a foreign one is refused without a change |
| `Conversation.SupportAgentOrchestrator.BeginMessage` | src/support_agent_lab/agent/orchestrator.py:85-117 | a turn up to its first await: hydrated, remembered and logged, or what is left when a step raises |
| `Conversation.SupportAgentOrchestrator.FinalizeMessage` | src/support_agent_lab/agent/orchestrator.py:342-354 | the end of a turn: answer remembered and logged, then the run |
| `ConversationSafety.ReplayAllBuilds` | src/support_agent_lab/memory/replay.py:19-63 | replaying well-formed events of one owner builds that owner's messages and thread facts, in order |
| `ConversationSafety.HydrateOutcome` | src/support_agent_lab/agent/orchestrator.py:368-399 | hydrating an unloaded conversation: found nothing, value error, other owner, or exactly the logged messages |
| `ConversationSafety.NextKeepsInv` | src/support_agent_lab/agent/orchestrator.py:85-117 | starting, finishing and abandoning turns, listing, other events, retention and restarts all keep memory and log in agreement |
| `ConversationSafety.FinishSucceeds` | src/support_agent_lab/agent/orchestrator.py:342-354 | the end of a suspended turn never meets another owner |
| `ConversationSafety.MemoryIsTheLog` | src/support_agent_lab/agent/orchestrator.py:85-117 | over all interleavings without retention, a loaded conversation's messages are exactly the logged ones, in order |
| `ConversationSafety.LogIsTheEndOfMemory` | src/support_agent_lab/memory/event_store.py:3271-3305 | with retention, what is left of the log is the end of what is loaded |
| `ConversationSafety.StableOwnership` | src/support_agent_lab/memory/store.py:42-60 | all messages of a conversation, loaded or logged, carry one tenant and one user |
| `ConversationSafety.RestartRebuilds` | src/support_agent_lab/agent/orchestrator.py:368-399 | in every run, retention included, hydration after a restart rebuilds the very same state exactly when the identifier is not empty and the log still holds every loaded message |
| `ConversationSafety.UnpurgedRestartRebuilds` | src/support_agent_lab/agent/orchestrator.py:368-399 | without retention it does so for every identifier but the empty one, which raises a value error |
| `ConversationSafety.HydrationFailsIff` | src/support_agent_lab/memory/replay.py:19-54 | hydration fails with a value error exactly for the empty identifier or when only run events are left |
| `ConversationSafety.EveryAnswerHasItsRun` | src/support_agent_lab/agent/orchestrator.py:351-354 | in every run, retention included, and whatever other threads append between the two writes, every answer a conversation lists is followed at once by its run |
| `ConversationTurns.EveryRunHasItsAnswer` | src/support_agent_lab/agent/orchestrator.py:351-354 | in every run, every run listed is preceded at once by its answer to the same user, unless retention has taken it |
| `ConversationTurns.FinishAdds` | src/support_agent_lab/agent/orchestrator.py:342-354 | in every run, a suspended turn that finishes logs exactly the assistant's answer and then its run, and memory hears that answer |
| `ConversationTurns.FinishLists` | src/support_agent_lab/agent/orchestrator.py:342-354 | the listing of its conversation grows by exactly these two, and no other listing grows |
| `ConversationTurns.StartAdds` | src/support_agent_lab/agent/orchestrator.py:79-117 | in every run, a message begins a turn exactly when its user may speak; then exactly that message, as the user's, is logged and heard, and otherwise nothing changes |
| `FeedbackReview.Mismatches` | src/support_agent_lab/api/main.py:2030-2055 | the differing fields are named exactly, and none are named exactly when all the fields sent agree |
| `FeedbackReview.CurrentIsStateAfter` | src/support_agent_lab/api/main.py:2005-2027 | the newest review and the count together are the state all reviews of the feedback leave |
| `FeedbackReview.CurrentStateIs` | src/support_agent_lab/api/main.py:2005-2027 | the current state is that of the newest review of the feedback, with the number of all of them |
| `FeedbackReview.FingerprintIsPrefixState` | frontend/src/shared/ops.ts:451-475 | the fingerprint is always the state of some prefix of the reviews |
| `FeedbackReview.FingerprintIsLongerPrefix` | frontend/src/shared/ops.ts:451-475 | it is that of the longer prefix seen exactly when the trail was not cut or the queue row is at least as new |
| `FeedbackReview.AcceptedIffNobodyAppended` | src/support_agent_lab/api/main.py:6094-6111 | a console review is accepted exactly when nobody has appended since the reviews it was shown |
| `FeedbackReview.CutTrailIsRefused` | frontend/src/shared/ops.ts:451-475 | with more than fifty reviews and no queue row that counts them all, a review is refused though nobody appended |
| `FeedbackReview.FiftyOneReviews` | frontend/app/page.tsx:965-969 | fifty-one reviews are such a trail |
| `FeedbackReview.AfterOwnReview` | frontend/app/page.tsx:1921-1926 | after its own review the console's next fingerprint is current exactly when its trail was complete |
| `FeedbackReview.ChainIsLinear` | src/support_agent_lab/api/main.py:6094-6111 | in every run each console review was sent against the state all earlier ones had left |
| `FeedbackReview.NoTwoFromOneState` | src/support_agent_lab/api/main.py:2030-2055 | no two recorded console reviews build on the same state |
| `FeedbackConsole.FeedbackReviewPanel.BeginLoad` | frontend/app/page.tsx:958-963 | a load takes the next number and clears trail and error |
| `FeedbackConsole.FeedbackReviewPanel.ShowLoad` | frontend/app/page.tsx:977-994 | a loaded trail is shown, and ends the load, only for the newest request |
| `FeedbackConsole.FeedbackReviewPanel.BeginSubmit` | frontend/app/page.tsx:1882-1896 | a submission takes the next number and sends the fingerprint of what is on screen |
| `FeedbackConsole.FeedbackReviewPanel.ShowRecorded` | frontend/app/page.tsx:1918-1924 | a recorded review is appended once, and only for the newest request |
| `FeedbackConsole.FeedbackReviewPanel.ShowRefresh` | frontend/app/page.tsx:1805-1821 | after a conflict the trail is replaced whatever the newest request |
| `FeedbackConsole.FeedbackReviewPanel.End` | frontend/app/page.tsx:1931-1942 | the error and the end of loading count only for the newest request |
| `FeedbackConsole.NextKeepsInv` | frontend/app/page.tsx:958-1942 | every step of panel, server and replies keeps the invariant that ties the screen and every call on its way to the log |
| `FeedbackConsole.ShownIsPrefixThenOwn` | frontend/app/page.tsx:958-1924 | in every run, what is shown of a feedback is a prefix of its reviews cut at the limit, followed by later ones this console recorded, in the order of the log |
| `FeedbackConsole.AcceptedIffAllSeen` | src/support_agent_lab/api/main.py:6094-6111 | in every run a submission on its way is accepted exactly when the console had counted all the reviews there are by now, and exactly when it was sent against the state they left |
| `FeedbackConsole.AcceptedNowIff` | frontend/app/page.tsx:1882-1896 | a submission sent and served at this moment is accepted exactly when all reviews of its feedback are on screen or its queue row counts them all |
| `FeedbackConsole.LoadingIff` | frontend/app/page.tsx:1938-1942 | `loading` shows exactly while the newest load or submission has not ended |
| `FeedbackConsole.BusyShowsTheNewest` | frontend/app/page.tsx:958-1942 | in every run the newest request, until it ends, shows its own feedback as loading and no error |
| `FeedbackConsole.LatestLoadWins` | frontend/app/page.tsx:977-981 | the trail on screen is that of the newest load, at least as new as it, or of a feedback refreshed since |
| `FeedbackConsole.CanStrayIff` | frontend/app/page.tsx:1805-1821 | in every run, with nothing further opened or submitted, another feedback's trail can come on screen exactly while a submission for another one is unanswered, or refused and not yet refreshed |
| `FeedbackConsole.RefreshCanShowAnother` | frontend/app/page.tsx:1805-1821 | a run in which a late refresh puts the trail of another feedback than the opened one on screen |
| `SnapshotLoader.SnapshotPanel.BeginLoad` | frontend/app/page.tsx:409-415 | issuing takes the next number and starts loading |
| `SnapshotLoader.SnapshotPanel.EndLoad` | frontend/app/page.tsx:431-455 | a success counts only for the newest request, and then replaces snapshot, times and error |
| `SnapshotLoader.SnapshotPanel.FailLoad` | frontend/app/page.tsx:468-480 | a failure counts only for the newest request, and keeps the snapshot |
| `SnapshotLoader.SnapshotPanel.RequireFresh` | frontend/app/page.tsx:820-826 | an action goes ahead exactly when the snapshot's freshness allows it |
| `SnapshotLoader.AcceptedRequestsIncrease` | frontend/app/page.tsx:432-434 | over any order of issues, successes and failures the numbers that counted strictly increase |
| `SnapshotLoader.LoadingIff` | frontend/app/page.tsx:476-480 | `loading` holds exactly while the newest request is unanswered, or before any |
| `SnapshotLoader.ScreenShowsAccepted` | frontend/app/page.tsx:435-455 | the snapshot on screen is the newest accepted one, the error that of a failure accepted after it |
| `SnapshotLoader.NewestReplyWins` | frontend/app/page.tsx:409-481 | once the newest request is answered, its reply is the one on screen |
| `SnapshotLoader.CanMutateIff` | frontend/src/shared/ops.ts:300-381 | changes are allowed exactly when the last success is no older than the bound and no failure with a message followed it |
| `SnapshotLoader.FreshnessIs` | frontend/src/shared/ops.ts:300-381 | in every run: status, age, staleness and permission, by what was accepted and what is on its way |
| `SnapshotLoader.ClockFollows` | frontend/app/page.tsx:435-455 | the clock they are judged by is the last sample, or the time of the snapshot |
| `SnapshotLoader.FailureIsOnTheBanner` | frontend/app/page.tsx:468-480 | when the newest request has failed, its message is on the banner |
| `SnapshotLoader.EmptyFailureKeepsMutation` | frontend/src/shared/ops.ts:327-337 | a failure with an empty message leaves changes allowed |
| `StableSort.SortSorts` | frontend/src/shared/ops.ts:270-279 | sorting by a total preorder sorts |
| `StableSort.SortStable` | src/support_agent_lab/api/main.py:3231-3231 | sorting keeps tied elements in their order |
| `StableSort.OrderMattersOnlyForTies` | frontend/src/shared/ops.ts:240-279 | filtering and sorting ignores the order of the input exactly when no two different elements that pass are tied |
| `AlertQueue.QueueIsSortedSelection` | frontend/src/shared/ops.ts:240-279 | the queue is a sorted permutation of exactly the alerts that pass all four filters |
| `AlertQueue.PassesIff` | frontend/src/shared/ops.ts:240-269 | an alert passes exactly when each filter that is set admits it, in the alert's own fields; a search matches a stretch of its text |
| `AlertQueue.SearchTextIs` | frontend/src/shared/ops.ts:257-268 | that text is key, reason, status, assignee and all samples |
| `AlertQueue.QueueOrder` | frontend/src/shared/ops.ts:270-279 | the order in the alerts' own fields, in each of the three modes |
| `AlertQueue.QueueIsCanonicalIff` | frontend/src/shared/ops.ts:270-279 | in any mode the queue is the same for every order of the input exactly when alerts that compare as equal are the same |
| `AlertQueue.SeverityQueueIsCanonical` | frontend/src/shared/ops.ts:277-277 | by severity, with distinguishable keys, the queue is canonical |
| `AlertQueue.CountOrderIsNotCanonical` | frontend/src/shared/ops.ts:271-276 | by count or newest, two alerts with different keys can make it depend on the order |
| `AlertQueue.DiffAlertQueue` | frontend/src/shared/ops.ts:383-408 | the loop lists, in order, the keys absent from the previous queue and those that changed |
| `AlertQueue.DiffIsExact` | frontend/src/shared/ops.ts:391-401 | new and updated keys are disjoint and together name exactly the alerts absent or different |
| `AlertQueue.SameQueueNoDiff` | frontend/src/shared/ops.ts:383-408 | a queue that only changed order has no difference |
| `AlertQueue.SameSamplesIff` | frontend/src/shared/ops.ts:1078-1090 | joined by newlines, sample lists are compared exactly, but for none against one empty sample |
| `AlertQueue.UnchangedIff` | frontend/src/shared/ops.ts:1078-1090 | alerts of one key are unchanged exactly when they are equal field by field, up to that one likeness |
| `AlertQueue.SelectionIsListed` | frontend/src/shared/ops.ts:410-435 | the selected alert is always on the new snapshot's list, or there is none |
| `AlertQueue.SelectionIs` | frontend/src/shared/ops.ts:410-435 | what can be preserved is, what has gone gives way to the snapshot's choice or its first alert, and the search follows the run |
| `AlertQueue.ReconcileIdempotent` | frontend/src/shared/ops.ts:410-435 | reconciling again with the same snapshot changes nothing |
| `Timeline.DedupeEntries` | src/support_agent_lab/api/main.py:3601-3615 | the loop computes the deduplicated list |
| `Timeline.DedupedKeys` | src/support_agent_lab/api/main.py:3601-3615 | deduplication loses no key and repeats none |
| `Timeline.DedupedAreFirst` | src/support_agent_lab/api/main.py:3601-3615 | it keeps the first entry of each key |
| `Timeline.BuildTimeline` | src/support_agent_lab/api/main.py:3230-3244 | deduplicate, sort, clip, renumber |
| `Timeline.TimelineIsOrdered` | src/support_agent_lab/api/main.py:3231-3232 | the timeline is ordered by time, and before renumbering by the whole sort key |
| `Timeline.OrderIs` | src/support_agent_lab/api/main.py:3231-3231 | by moment, then the number it was made with, then type as text |
| `Timeline.TimelineIsNumbered` | src/support_agent_lab/api/main.py:3232-3243 | it is numbered from zero, with as many entries as the limit and the distinct keys allow |
| `Timeline.TimelineKeepsFirsts` | src/support_agent_lab/api/main.py:3230-3244 | keys are pairwise distinct and each entry is the first of its key |
| `Timeline.FactsAreToldOnce` | src/support_agent_lab/api/main.py:3601-3615 | no two entries agree in source, type, moment and evidence, and each is the first given of those that do |
| `Timeline.FactsAreKept` | src/support_agent_lab/api/main.py:3230-3244 | and no fact given is missing but for the limit |
| `Timeline.DroppedComeLast` | src/support_agent_lab/api/main.py:3231-3232 | what the limit drops sorts no earlier than anything kept |
| `Timeline.SourceOrderMattersIff` | src/support_agent_lab/api/main.py:3230-3231 | the ordered entries are the same for every order of the sources exactly when entries of one key, or of one time, sequence and type, are the same |
| `Timeline.TimelineIgnoresSourceOrder` | src/support_agent_lab/api/main.py:3230-3244 | then so is the timeline, at any limit |
| `Signing.CanonicalIdempotent` | frontend/src/server/signing.ts:7-14 | the canonical form of a header is its own canonical form |
| `Signing.CanonicalKeepsItems` | src/support_agent_lab/api/auth.py:104-105 | for every header the server reads the same list from it and from its canonical form exactly when it is empty, or the gateway cuts no byte order mark off a part and the header holds more than separators and blanks or the default is blank |
| `Signing.CanonicalEmptyIff` | frontend/src/server/signing.ts:7-14 | the canonical form is empty exactly for headers of separators and blanks |
| `Signing.RolesKeepItems` | src/support_agent_lab/api/auth.py:104-104 | the role header, whatever it holds: exactly when it is empty, or cuts no mark and is not blank |
| `Signing.ScopesKeepItems` | src/support_agent_lab/api/auth.py:105-105 | the scope header, whatever it holds: exactly when no mark is cut |
| `Signing.SameItemsIff` | frontend/src/server/signing.ts:7-14 | without defaults, both sides read the same items exactly when no mark is cut |
| `Signing.ByteOrderMarkChangesClaims` | src/support_agent_lab/api/auth.py:104-105 | behind a byte order mark the two lists differ |
| `Signing.ActorStringDetermines` | frontend/src/server/signing.ts:26-43 | equal canonical actor strings of one-line fields come from equal fields |
| `Signing.ActorStringIs` | frontend/src/server/signing.ts:26-43 | the signed text, line by line, with one role and no scopes as defaults |
| `Signing.RequestStringDetermines` | frontend/src/server/signing.ts:45-70 | equal canonical request strings of one-line fields come from equal fields |
| `Signing.RequestStringIs` | frontend/src/server/signing.ts:45-70 | the same text, then nonce, method in upper case, path and body digest |
| `Signing.UpperIs` | frontend/src/server/signing.ts:66-66 | the method keeps its letters and none is lower |
| `Text.TrimIdempotent` | frontend/src/shared/consoleState.ts:85-88 | trimming twice is trimming once |
| `Text.SpacesAre` | src/support_agent_lab/api/auth.py:104-105 | the characters each language trims, one by one |
| `Text.SplitJoin` | src/support_agent_lab/api/auth.py:104-105 | splitting undoes joining for parts free of the separator |
| `QueryString.UnquoteQuote` | frontend/src/shared/consoleState.ts:61-75 | percent-decoding undoes percent-encoding on all bytes |
| `QueryString.QuotedByteIs` | frontend/src/shared/consoleState.ts:61-75 | what each byte is written as: kept, a plus sign, or its number in two upper-case digits |
| `QueryString.ParseSerialize` | frontend/src/shared/consoleState.ts:61-83 | parsing form-encoded text returns the list of parameters it was made from |
| `QueryString.UrlSearchParams.Set` | frontend/src/shared/consoleState.ts:103-114 | setting replaces the first parameter of a name, drops the others, or appends |
| `ConsoleState.SerializeConsoleState` | frontend/src/shared/consoleState.ts:61-75 | the nine calls leave exactly the parameters that differ from the defaults, in order |
| `ConsoleState.ParseOfSerialize` | frontend/src/shared/consoleState.ts:46-75 | parsing a serialized state, with or without the question mark, gives its trimmed normal form |
| `ConsoleState.ParsedTexts` | frontend/src/shared/consoleState.ts:46-59 | the texts and the flag that are read, name by name |
| `ConsoleState.ParsedView` | frontend/src/shared/consoleState.ts:46-59 | workspace and tab are the words of their lists, or the default |
| `ConsoleState.ParsedFilters` | frontend/src/shared/consoleState.ts:46-59 | so are severity, status and sort |
| `ConsoleState.ParsedIsWellFormed` | frontend/src/shared/consoleState.ts:46-59 | whatever the query string, the parsed state is well formed |
| `ConsoleState.SerializeAfterParseIdempotent` | frontend/src/shared/consoleState.ts:46-75 | serializing what was parsed is a fixed point of parsing and serializing |
| `TraceContext.ParseOfFormat` | src/support_agent_lab/tracing.py:20-35 | a well-formed value of any version but ff is read into its parts |
| `TraceContext.ParsedIsFormat` | src/support_agent_lab/tracing.py:20-35 | only such values are read, up to blanks and letter case |
| `TraceContext.ReadsAnyCase` | src/support_agent_lab/tracing.py:20-35 | a well-formed value is read in either case and with blanks around it |
| `TraceContext.ParseOfMake` | src/support_agent_lab/tracing.py:38-59 | a value is made exactly for a valid trace identifier, and reading it returns that, a span that is not zero, and the normalized flags |
| `TraceContext.MadeIs` | src/support_agent_lab/tracing.py:38-59 | the value handed on, character by character |
| `TraceContext.PropagationKeepsTrace` | src/support_agent_lab/tracing.py:20-59 | handing a context on keeps trace identifier and flags |
| `StagingGate.AggregateEvalGateRecord` | src/support_agent_lab/api/main.py:4356-4435 | the loops compute the aggregate record |
| `StagingGate.SumsAgree` | src/support_agent_lab/api/main.py:4369-4370 | passes never exceed cases, and equal them exactly when no suite failed |
| `StagingGate.SumsAre` | src/support_agent_lab/api/main.py:4369-4370 | cases and passes are the sums over the suites, a summary being one case and a crash none |
| `StagingGate.RecordIs` | src/support_agent_lab/api/main.py:4153-4355 | what a suite's record says of its run |
| `StagingGate.PassedIff` | src/support_agent_lab/api/main.py:4404-4408 | the gate passes exactly when no suite crashed and all cases passed |
| `StagingGate.ScoreInRange` | src/support_agent_lab/api/main.py:4421-4421 | the score lies in [0, 1] and is 1 exactly when there are cases and all passed |
| `StagingGate.FailuresConserved` | src/support_agent_lab/api/main.py:4371-4403 | the failures listed are as many as the cases that did not pass plus the suites that crashed |
| `StagingGate.FailuresNamed` | src/support_agent_lab/api/main.py:4371-4403 | exactly the failed cases and crashed suites are named, each with runner and suite |
| `StagingGate.CasesSayWhy` | src/support_agent_lab/api/main.py:4371-4403 | every case listed has failed, says why, and is named by its suite |
| `StagingGate.OrderIrrelevant` | src/support_agent_lab/api/main.py:4369-4408 | the order of the suites changes neither counts nor verdict |

## Left out

Assumptions under which the results hold:

- StoreHistory.MarksIdentifyRows: holds under the two assumptions on writes that follow.
- StoreHistory.StepTouch: each transaction that updates a table in place is taken to read a later clock than the one before it, however many rows it stamps; reading the clock and writing are one step, although the source may read it before it holds the lock or take the instant from its caller. `SameInstantUpdateIsInvisible` shows what two updates within one clock reading would do.
- StoreHistory.StepInsert: an append's timestamp and its insert are one step, and one tenant's rows are modelled; a rowid is only known to be above those present.
- RetentionSafety.RetentionSafety: speaks of rows in tables that carry a mark; for nonces `BackupCoversNoncesIff` and `PreviewCoversNoncesIff` give the exact conditions.
- RetentionSafety.UsedPreviewIsRejected: for nonces assumes that none is reserved already expired. The signature check before the reservation gives this, up to the time between the two.
- RetentionSafety.DeletedSetIsAnnouncedSet: a dry run's counts are read at one instant, although the source reads table after table.
- RetentionSafety.MatchingReportSameCandidates: the report digest is injective; SHA-256 is otherwise uninterpreted. The second timestamp column of two marks is omitted, which only makes marks coarser than they are.
- RetentionProvenance.DeleteGoesBack: the token digest is injective.
- RetentionProvenance.PassesIff: which of several failing checks answers first is modelled, but nothing is stated of it.
- OperationToken.AcceptedIffSigned: JSON text and HMAC are parameters; characters outside the base64url alphabet, which Python's decoder skips, are refused here, and occur in no signed body.
- OperationToken.DecodeSigned: loading undoes dumping for the payload, and the signature is ASCII, as a hexadecimal digest is.
- PromotionGate.GateMonotone: rates and thresholds are reals, without floating-point rounding.
- PromotionEvidence.StaleIff: the age in hours is a real, rounded to three places with ties to the even one.
- PromotionSafety.EveryDecisionIsBoundOnce: each request is served as one step; the source awaits between its already-used check and its append. Identifiers are fresh, the clock does not run back, nobody else writes promotion events and retention does not remove them, and the gate digest is injective.
- ConversationSafety.MemoryIsTheLog: one process, appends that do not fail, and listing requests served as one step although they run on a worker thread. Texts are redacted before they reach the model.
- ConversationSafety.EveryAnswerHasItsRun: worker threads append events replay does not read, also between a turn's two last writes; a purge is a step of its own.
- ConversationSafety.RestartRebuilds: the last intent and the update time are not part of the state; after a restart the source takes the last intent from the last completed run.
- FeedbackReview.ChainIsLinear: each review request is served as one step.
- FeedbackConsole.ShownIsPrefixThenOwn: a read is answered with the log of one moment since it was sent, and retention removes no review meanwhile. The assignee and note fields, the search and the snapshot reload are no part of the panel.
- SnapshotLoader.LoadingIff: each request is answered at most once.
- AlertQueue.QueueIsCanonicalIff: timestamps parse and `localeCompare` orders keys totally, though it may tie different ones.
- QueryString.ParseSerialize: UTF-8 is a parameter that decodes what it encodes and keeps ASCII; unpaired surrogates, which the platform replaces, are no characters here.
- Signing.CanonicalKeepsItems: the server's default holds no byte order mark; `RolesKeepItems` and `ScopesKeepItems` are about the two defaults there are.
- Signing.ActorStringDetermines: fields free of newlines; role and scope lists arrive as text, not as arrays, and methods are folded in ASCII.
- TraceContext.ParseOfMake: the digest yields 64 lower-case hexadecimal digits.
- Timeline.TimelineKeepsFirsts: evidence is compared as a mapping, which sorted JSON text stands for.

Not modelled:

- VACUUM, which may renumber rows, and the maintenance lock, which the results do without.
- HTTP, dependency wiring, scopes, middleware, metrics, readiness probes, the LLM gateway, the tool adapters and the alert dispatcher.
- React rendering, and all of the console page outside its three request protocols.
- Message wording, SLO text, the incident brief, regression drafts and the automation plan.
- The minimum-rate, triage, delivery and worker objectives of the SLO report, which the promotion gate does not share.
- Intent keywords, routing, plans and the answer text; a turn's content is a parameter of its two ends.
- How the timeline's entries are collected and worded before they are merged.
