# Verified model of the Substreams Data Service payment layer

A provider meters a stream, asks the consumer for signed cumulative vouchers (RAVs), and later
collects the last voucher on chain. This project models that layer in Dafny 4.11 and proves what
holds of the money in it, over every interleaving of the parties, goroutines and crashes involved.
`dafny verify dfyconfig.toml` checks everything.

## How it is built

**One session as a transition system.** `Ledger` and `Collections` hold the session's counters,
voucher, baseline, pending request and settlement records. `Protocol` makes every critical section
of the gateway, the runtime manager and the repository one `Step`; a run is any list of steps, so
evaluators hold stale snapshots, usage lands between a request and its acceptance, streams break and
rebind, and deliveries arrive late. The bodies run by `withSessionEval` hold the session's evaluation
lock, and the sections inside an evaluation are separate steps between which everything else may
happen. `SubmitRAV` is one step that does not overlap an evaluation. `ProtocolSafety` proves one
invariant of all runs; `ProtocolTheorems`, `Escrow`, `ClampedRequests`, `SettlementKeys`, `TwoParty`,
`TwoPartyKeys` and `UsageReports` draw the results from it.

**The same behaviour as code.** `Repository`, `Gateway`, `UsageReports` and `Collector` have the
source's objects as classes. Each method is proved to do to the concrete maps what the protocol's
functions say, and the composite operations are proved to be runs of the protocol, so every theorem
about runs covers them.

**Settlement.** `Settlement` puts many sessions beside collection attempts, a mempool and a chain that
pays the increase over what a tuple has already collected, with crashes, late mining and stale
listings. `SettlementBounds` projects a settlement run to each session and bounds what it is paid.
`Collector` is the daemon with its listings, failing calls and cancellation, and `CollectorRuns`
proves that what it does are settlement runs.

**The other components.** `BindClient` is the consumer's stream-binding client, one step per mutex
section, for any number of callers. `Aggregator`, `Signature` and `Eip712` are receipt aggregation,
low-S normal form and the signed encoding. `GrtAmounts` parses and prints amounts. `ProtoWire` and
`Sanitizer` are the wire format and the auth sanitizer, `SanitizerGrowth` its failing frame. `WorkerPool` and `MeteringEmitter` are the
plugin's concurrent session pool and metering buffer.

## What was found on the way

- A request cleared by an evaluation that stops the session can come back: `bindSession` delivers a
  queued request outside the runtime mutex, and its `clearQueuedResponse` may land between
  `clearPendingRAV` and the dispatch of the stop. `LateDelivery` gives the exact condition,
  `ClearedRequestCanComeBack` reaches it, and the stop that follows always removes it again.
- Nothing checks a voucher's collection id, and the unary call does not check its data service, so one
  session can file collectible records under several settlement keys and be paid its voucher on each
  (`TwoKeysOneVoucher`, `TwoKeysPayTwice`: paid 10 on a voucher of 5 with nothing metered). Its records
  have one key if and only if every voucher it accepted names that tuple (`OneKeyIff`). Then it is
  never paid more than its voucher (`OneKeyPaidWithinVoucher`) nor, without the unary call, more than
  its opening voucher plus what was metered (`OneKeyPaidWithinMetered`). A consumer that follows the
  protocol keeps it so (`FollowerHasOneKey`).
- A request quotes its cost in 256 bits and clamps anything larger. A pending request can be answered
  if and only if its target is below 2^256 (`AnswerableIff`). A clamped one on a non-zero voucher is
  therefore unanswerable, and blocks `SubmitRAV` as long as it is pending (`ClampedBlocks`). Only from a
  zero voucher can it be accepted, and then what the clamp cut off is lost (`ClampedAnswerableFromZero`,
  `AcceptKeepsSurplus`, and a run in `ClampLosesSurplus`).
- `SubmitRAV` says that the voucher was accepted even when the commit failed. That happens exactly
  while the record is being collected at another value (`UnaryAcceptedIff`), and
  `UnaryYesStoresNothing` reaches it.
- The settlement tuple does not name the session. Sessions that share one are paid the largest of their
  vouchers (`SharedTuplePaysLargest`). That is the sum if and only if at most one of them is worth
  anything (`SharedTuplePaysSumIff`); `SharedTupleShortfall` collects 3 and 5 and is paid 5.
- `StartSession` creates the session before it looks at the data-plane endpoint. Without one it answers
  with an error and the session stays (`StartSession`).
- `flipSignatureV` is undone by a second call exactly when V is neither 26 nor 255, and with such a V
  two unrelated signatures compare equal (`FlipTwice`, `IrregularCollision`).
- The amount parser accepts a minus sign and returns the 256-bit complement, with or without a
  fraction (`NegativeWraps`).
- A sanitized gRPC body is accepted again exactly when the clean message is shorter than 2^32 bytes,
  because the length field is truncated without a check (`FramedIdempotent`). A raw legacy value grows
  by two bytes when it is rewritten, so a frame of 2^32-1 message bytes comes out too long
  (`GrownFrameRefused`).
- In `BindSession` the branches for an attempt that is still active on a changed stream are dead
  (`BindSafety`).

## Model

| member | source | states |
|---|---|---|
| `Ledger.AssessFunds` | provider/gateway/funds.go:43-77 | The assessment quotes the session's voucher value, its projected outstanding and the balance; funds are unknown exactly without a balance, insufficient exactly when the projected outstanding exceeds a known one, and then balance plus minimum needed is the projected outstanding. |
| `Ledger.AcceptKeepsSurplus` | provider/gateway/rav_request_runtime.go:20-37 | Committing a request's snapshot keeps voucher minus baseline, and so projected outstanding, exactly when the requested cost was not clamped; the voucher never loses value. When a clamped request can be committed at all is `ClampedAnswerableFromZero`. |
| `Ledger.UpdateLifecycle` | provider/repository/inmemory.go:146-168 | A terminated session keeps its lifecycle whatever snapshot is written; nothing else of the session changes and its time stamp never goes back. |
| `Ledger.Touch` | provider/repository/inmemory.go:124-143 | Both time stamps cover the touch and never go back; nothing else changes. |
| `Repository.InMemoryRepository.SessionCreate` | provider/repository/inmemory.go:57-81 | A session and the record of its initial voucher appear together or not at all; nothing of another session changes. |
| `Repository.InMemoryRepository.SessionUpdateRuntimeState` | provider/repository/inmemory.go:146-168 | Writes the lifecycle of a known session as `UpdateLifecycle` allows, and nothing else in the repository. |
| `Repository.InMemoryRepository.CollectionNextCollectible` | provider/repository/inmemory.go:520-550 | The record a voucher leads to, or which of the two conflicts refuses it. |
| `Repository.InMemoryRepository.SessionUpdateRavAndBaseline` | provider/repository/inmemory.go:171-210 | Voucher, baseline and record are written together, or none of them with the reason. |
| `Repository.InMemoryRepository.UpdateCollection` | provider/repository/inmemory.go:619-639 | A mark changes exactly one record, and only when it is legal for the stored value and state. |
| `Repository.InMemoryRepository.CollectionList` | provider/repository/inmemory.go:560-576 | Lists the keys of exactly the records in a state, each once. |
| `ProtocolSafety.RunKeepsInv` | provider/gateway/runtime_manager.go:35-328 | In every run: pending requests fit the ledger they will commit to, a pending request with nothing queued on a bound session was placed on that stream's channel, a voucher has a record of the same value under its key and no record exceeds it, and a payment stop leaves nothing to accept. |
| `ProtocolSafety.CommitAgrees` | provider/repository/inmemory.go:171-210 | A commit of a voucher that is not below the current one leaves session and records in agreement. |
| `ProtocolTheorems.Conservation` | provider/gateway/handler_payment_session.go:205-300 | From any start, in every later run: voucher minus baseline stays the initial voucher's value without the unary call, never falls with it, and the voucher never loses value, while metered cost fits 256 bits. |
| `ProtocolTheorems.UnaryMovesLedger` | provider/gateway/handler_submit_rav.go:116-166 | The unary call never lowers the voucher or the difference to the baseline. |
| `ProtocolTheorems.StopIsFinal` | provider/repository/inmemory.go:146-168 | After a session is terminated no interleaving revives it, changes its end reason or funds report, or moves its voucher or baseline. |
| `ProtocolTheorems.AcceptedIffExact` | provider/gateway/handler_payment_session.go:205-330 | A stream submission is accepted if and only if it answers the pending request to the unit with the session's own authorized signature and its record is not being collected at another value; then exactly that voucher and the request's baseline are stored, and otherwise nothing changes. |
| `ProtocolTheorems.UnaryAcceptedIff` | provider/gateway/handler_submit_rav.go:60-169 | The unary call says yes exactly to an active session's authorized voucher covering all metered cost while nothing is pending, and stores it with all metered usage and cost as the baseline, unless its record is being collected at another value. |
| `ProtocolTheorems.UnaryYesStoresNothing` | provider/gateway/handler_submit_rav.go:147-169 | A reachable session to whose voucher the unary call says yes while nothing is stored. |
| `ProtocolTheorems.RecordsMatchSession` | provider/repository/inmemory.go:171-210 | In every reachable state the current voucher has a record of its value under its key, records are filed under their own voucher's tuple and value, and none exceeds the current voucher. |
| `ProtocolTheorems.NoStrandedRequest` | provider/gateway/runtime_manager.go:35-73 | In every reachable state a pending request with nothing queued on a bound session was placed on that stream's channel. |
| `ProtocolTheorems.CommitFailsOnlyWhilePending` | provider/repository/inmemory.go:520-550 | A commit is refused exactly when the record is being collected at another value; the stale-collected refusal is unreachable. |
| `ProtocolTheorems.RecordStep` | provider/repository/inmemory.go:578-638 | A record's value never falls, is frozen while pending, and grows only to a fresh collectible record; at one value an attempt is counted once, ends collected or retryable, and collected is final. |
| `ProtocolTheorems.RecordsOnlyGrow` | provider/repository/inmemory.go:520-550 | Over any run a key's value never decreases, so never below a value once collected. |
| `ProtocolTheorems.LateDelivery` | provider/gateway/runtime_manager.go:302-328 | A delivery to an old channel or of an old response changes nothing; a matching one clears only what is on the bound channel; it restores a cleared request exactly in the window of a stopping evaluation. |
| `ProtocolTheorems.ClearedRequestCanComeBack` | provider/gateway/runtime_manager.go:35-73 | That window is reachable, and the stop dispatched next removes the request again. |
| `ClampedRequests.AnswerableIff` | provider/gateway/handler_payment_session.go:205-300 | A pending request can be answered by some submission if and only if its target is below 2^256. |
| `ClampedRequests.ClampedAnswerableFromZero` | provider/gateway/rav_request_runtime.go:20-37 | The target of a clamped request is the voucher plus 2^256-1, so it is answerable if and only if the voucher is worth nothing. |
| `ClampedRequests.ClampedBlocks` | provider/gateway/handler_submit_rav.go:18-62 | On any other voucher no submission is accepted and the unary call refuses everything while the request is pending. |
| `ClampedRequests.ClampLosesSurplus` | provider/gateway/rav_request_runtime.go:20-37 | A reachable session with a zero voucher whose voucher minus baseline falls below zero by an accepted submission. |
| `SettlementKeys.OneKeyIff` | provider/gateway/handler_payment_session.go:240-251 | In every run a session's records have at most the key t if and only if every voucher it held is drawn on t. |
| `SettlementKeys.TwoKeysOneVoucher` | provider/gateway/handler_submit_rav.go:101-114 | A run with a voucher of 5, no metered cost and two collectible records of 5 on different keys. |
| `SettlementKeys.VoucherWithinMetered` | provider/gateway/handler_payment_session.go:205-300 | In every run without the unary call the voucher is at most the opening voucher plus the metered cost, which fits 256 bits. |
| `Escrow.EscrowSafety` | provider/gateway/runtime_manager.go:89-167 | In every run whose checks see a fixed balance: no request asks for more than the escrow, projected outstanding exceeds it by at most the cost metered and the value promised in excess since the last sufficient check, and a stop reports the exact shortfall, within the same bound. |
| `Escrow.StreamHasNoExcess` | provider/gateway/runtime_manager.go:89-167 | Nothing is promised in excess in a run without the unary call whose opening voucher the balance covers. |
| `Escrow.NeedMoreFundsExact` | provider/gateway/funds.go:103-119 | The stop message quotes the balance seen, and balance plus minimum needed is the projected outstanding. |
| `Escrow.ReportRound` | provider/usage/service.go:59-103 | After a report an active session is covered by the escrow; a session the report stopped overran by at most that event's cost and was told exactly by how much. |
| `Escrow.SequentialReports` | provider/usage/service.go:59-103 | The same for any sequence of reports, with any other steps between their sections. |
| `TwoParty.TwoPartyAgreement` | consumer/sidecar/rav_request_signing.go:13-47 | With a consumer that follows the protocol, over any number of streams: at most one request or answer is under way, a placed request really is under way, no answer is refused while the session lives, the consumer never signs for more than the initial voucher plus metered cost nor holds more than the provider, and reading a CONTINUE leaves both with the same value. |
| `TwoParty.AnswerAccepted` | consumer/sidecar/ingress.go:454-533 | The consumer's answer hits the pending usage and target exactly, so it is refused only by a failing commit. |
| `TwoPartyKeys.FollowerHasOneKey` | consumer/sidecar/rav_request_signing.go:13-47 | With a consumer that follows the protocol a session has exactly one settlement key in every run, and every request and answer under way is on it. |
| `Gateway.PaymentGateway.StartSession` | provider/gateway/handler_start_session.go:21-155 | The session and its record exist afterwards exactly when the account is complete, names this provider, the initial voucher, if any, is well-formed, authorized and on this account, and the id is unused; the caller is told so exactly if an endpoint is configured. Otherwise nothing changes, and a refusal names the first reason that applies. |
| `Gateway.PaymentGateway.EvaluateMeteredUsage` | provider/gateway/runtime_manager.go:89-167 | Run alone, the method is one whole evaluation of the protocol. |
| `Gateway.PaymentGateway.BindSession` | provider/gateway/runtime_manager.go:35-73 | A second stream is refused; a new one drops a request the old stream already had, gets what was queued and is evaluated; when the evaluation fails the binding is undone and the caller told. |
| `Gateway.PaymentGateway.UnbindSession` | provider/gateway/runtime_manager.go:75-81 | Only the bound stream can unbind. |
| `Gateway.PaymentGateway.HandleRavSubmission` | provider/gateway/handler_payment_session.go:184-330 | The reply and the new state are those of the protocol's submission; only a CONTINUE is followed by an evaluation. |
| `Gateway.PaymentGateway.HandleFundsAck` | provider/gateway/handler_payment_session.go:348-368 | Both answers clear the pending request and the queue and only a planned deposit continues; a missing acknowledgment stops and changes nothing. |
| `Gateway.PaymentGateway.SubmitRav` | provider/gateway/handler_submit_rav.go:18-169 | Accepts as the protocol's unary step does, including the ignored commit failure; a missing, malformed or unacceptable voucher changes nothing, and a refusal carries the first reason that applies and whether the caller may go on. |
| `Gateway.PaymentGateway.MarkCollection` | provider/repository/inmemory.go:619-639 | Operator marks reach exactly one record of one session. |
| `Gateway.RuntimeManager.OpenStream` | provider/gateway/runtime_manager.go:35-73 | The mutex section of a bind: slot, channel and what is left to deliver. |
| `Gateway.RuntimeManager.TryDeliver` | provider/gateway/runtime_manager.go:302-328 | A delivery is placed exactly when its channel has room, and clears only the queue entry it carries. |
| `Gateway.RuntimeManager.Dispatch` | provider/gateway/runtime_manager.go:182-211 | A response ends up on the bound stream's channel, or queued when there is none or it is full. |
| `Gateway.BindIsRun` | provider/gateway/runtime_manager.go:35-73 | A bind is a run of the protocol. |
| `Gateway.UndoneBindIsRun` | provider/gateway/runtime_manager.go:35-73 | So is a bind that is undone. |
| `Gateway.SubmissionIsRun` | provider/gateway/handler_payment_session.go:184-330 | A submission with its re-evaluation is a run of the protocol. |
| `Gateway.ReportIsRun` | provider/usage/service.go:59-103 | Applying an event and evaluating is a run of the protocol. |
| `Gateway.RequestIffDue` | provider/gateway/runtime_manager.go:134-167 | An evaluation leaves a request outstanding exactly when the escrow, if known, covers the cost since the baseline and one was outstanding or is due: a stream is bound, a voucher is held and that cost has reached the threshold. A new one is for all of that cost, an outstanding one stays as it was, and the session stays active exactly when it is covered. |
| `UsageReports.PricesNeverWrap` | grt.go:272-276 | Costs never wrap for any pair of counters exactly when the prices' sum times 2^64-1 is below 2^256; prices summing to at most 2^192 qualify. |
| `UsageReports.CostExact` | grt.go:369-373 | A cost is exact if and only if the true cost is below 2^256. |
| `UsageReports.ToUsageEvent` | provider/usage/service.go:112-135 | Accumulating in wrapping 64-bit arithmetic gives the true metric sums, wrapped once. |
| `UsageReports.UsageService.Report` | provider/usage/service.go:49-110 | The loop is event by event application and evaluation, skipping nil events and empty session ids. |
| `UsageReports.TotalCostExact` | provider/repository/repository.go:196-207 | In every run the total cost is the price of all usage metered, and the counters are that usage modulo 2^64. |
| `UsageReports.ReportCharges` | provider/usage/service.go:59-93 | With prices that cannot wrap, a report charges each session exactly the price of its own events. |
| `UsageReports.ChargesIgnoreBatching` | provider/usage/service.go:59-93 | With prices that cannot wrap, a session's total cost and counters depend only on the usage reported for it: not on how events are split into reports, their order, or other sessions' events. |
| `Settlement.SettlementIdempotent` | cmd/sds/provider_operator_collect_daemon.go:159-211 | Across attempts, crashes, reclaims, retries and new vouchers, what a tuple was paid is the largest value whose transaction succeeded, and a record marked collected is covered by it. |
| `Settlement.PaidWithinVoucher` | cmd/sds/provider_operator_collect_daemon.go:273-322 | What one tuple was paid is within the record that some session in a reachable state has on it, and so within that session's voucher. What a session is paid over all its tuples is bounded in `OneKeyPaidWithinVoucher`. |
| `SettlementBounds.ProjectedRuns` | cmd/sds/provider_operator_collect_daemon.go:159-211 | Seen from one session every settlement run is a run of the protocol, so all its theorems hold for every session of a settlement. |
| `SettlementBounds.PaidToWithinRecord` | cmd/sds/provider_operator_collect_daemon.go:273-322 | On each tuple a session draws at most the value of its own record there. |
| `SettlementBounds.OneKeyPaidWithinVoucher` | cmd/sds/provider_operator_collect_daemon.go:273-322 | A session whose vouchers are all on one tuple is never paid more than its voucher, over all tuples together. |
| `SettlementBounds.OneKeyPaidWithinMetered` | cmd/sds/provider_operator_collect_daemon.go:273-322 | Without the unary call it is never paid more than its opening voucher plus the metered cost, which fits 256 bits. |
| `CollectorRuns.TwoKeysPayTwice` | provider/gateway/handler_submit_rav.go:101-114 | A settlement run that pays one session 10 on a voucher of 5 with nothing metered. |
| `Settlement.SharedTuplePaysLargest` | horizon/types.go:60-68 | When all records on a tuple are collected, exactly the largest of them was paid. |
| `SettlementBounds.SharedTuplePaysSumIff` | horizon/types.go:60-68 | Then what was paid is at most their sum, and equals it if and only if at most one of them is worth anything. |
| `CollectorRuns.SharedTupleShortfall` | horizon/types.go:60-68 | A settlement run in which two sessions collect 3 and 5 on one tuple and 5 is paid. |
| `Settlement.OnlyConfirmCollects` | provider/repository/inmemory.go:592-604 | No step but a confirmed collection makes a record collected. |
| `Collector.BackoffFor` | cmd/sds/provider_operator_collect_daemon.go:259-271 | The loop computes the base doubled once per further attempt, capped at an hour from the second on. |
| `Collector.BackoffGrows` | cmd/sds/provider_operator_collect_daemon.go:259-271 | Waits are capped and never shrink, unless the configured base exceeds the cap. |
| `Collector.AutoCollector.ListCollections` | provider/gateway/handler_operator.go:198-255 | Current records of the asked state, each once, and all of them below the limit of 500. |
| `Collector.AutoCollector.ListEligible` | cmd/sds/provider_operator_collect_daemon.go:214-257 | From the two current listings, keeps in order the records above the threshold whose attempts and backoff allow another try; below the limit nothing that may be collected is missing; a failing listing yields nothing. |
| `Collector.AutoCollector.CollectOne` | cmd/sds/provider_operator_collect_daemon.go:273-322 | Marks, sends only if the mark was seen to succeed, and ends collected after success and retryable after failure; a lost call leaves the record where it was or where the server put it. |
| `Collector.AutoCollector.ReclaimStalePending` | cmd/sds/provider_operator_collect_daemon.go:164-212 | Returns the stale records of the current pending listing to retryable, up to a cancellation, whatever mark calls are lost. |
| `Collector.AutoCollector.Sweep` | cmd/sds/provider_operator_collect_daemon.go:137-157 | Attempts every eligible record and then reclaims, up to a cancellation; with nothing eligible or a failed listing it does neither. |
| `CollectorRuns.SweepRuns` | cmd/sds/provider_operator_collect_daemon.go:137-157 | A sweep from listings of any age is a settlement run, so the settlement results hold after it. |
| `CollectorRuns.FreshSweepRuns` | cmd/sds/provider_operator_collect_daemon.go:137-157 | So is a sweep from listings taken now, with no condition on their history. |
| `BindClient.PaymentSessionClient.SetEndpoint` | consumer/sidecar/payment_session_manager.go:109-124 | A new endpoint closes the stream and whatever was bound or binding. |
| `BindClient.PaymentSessionClient.BeginBind` | consumer/sidecar/payment_session_manager.go:126-163 | The first section of a bind: outcome and new state for every case. |
| `BindClient.PaymentSessionClient.EndBind` | consumer/sidecar/payment_session_manager.go:165-194 | The section after the send: binds, gives up or closes, and reports which. |
| `BindClient.PaymentSessionClient.BeginSend` | consumer/sidecar/payment_session_manager.go:197-248 | Which case of the switch a submission takes. |
| `BindClient.PaymentSessionClient.EndSend` | consumer/sidecar/payment_session_manager.go:220-232 | A failed send closes the stream only if it is still the one used. |
| `BindClient.PaymentSessionClient.CloseStreamLocked` | consumer/sidecar/payment_session_manager.go:324-349 | Closing drops stream, bound and binding session and closes the done channel. |
| `BindClient.BindSafety` | consumer/sidecar/payment_session_manager.go:126-195 | In every run: bound implies a live stream that carried this session's bind, binding holds exactly with a done channel and never with bound, an active attempt has its stream and generation unchanged, every done channel is current or closed exactly once, waiters wait on such a channel, and the current one has an owner. |
| `BindClient.EntryExhaustive` | consumer/sidecar/payment_session_manager.go:205-247 | The switches cover every reachable state, so the mutex is never locked twice, and a waiter always has a channel. |
| `BindClient.SendsOnlyWhereBound` | consumer/sidecar/payment_session_manager.go:197-232 | A voucher is only sent on a stream that carried the bind request of its session. |
| `BindClient.OwnerReleasesWaiters` | consumer/sidecar/payment_session_manager.go:165-194 | The owner's second section closes the channel whatever its send returned, every waiter can go on, and the session is bound exactly if the send succeeded. |
| `BindClient.LateFinishIsHarmless` | consumer/sidecar/payment_session_manager.go:165-194 | An attempt that lost its stream or its turn changes nothing when it comes back. |
| `Aggregator.SumReceipts` | horizon/aggregator.go:99-137 | The loop returns base plus total and the latest timestamp, or overflows when a running sum passes 2^128-1. |
| `Aggregator.AggregateConcat` | horizon/aggregator.go:99-137 | Aggregating a concatenation is aggregating the second part onto the voucher of the first, failures included. |
| `Aggregator.OverflowIffTotal` | horizon/aggregator.go:116-121 | For non-negative receipts it fails exactly when the total exceeds 2^128-1. |
| `Aggregator.ReceiptAggregator.VerifyReceiptSigners` | horizon/aggregator.go:151-162 | The first receipt whose signer is not recovered or not accepted decides the error. |
| `Aggregator.ReceiptAggregator.CheckReceiptTimestamps` | horizon/aggregator.go:175-186 | Succeeds exactly when every receipt is later than the previous voucher. |
| `Aggregator.ReceiptAggregator.ValidateReceiptConsistency` | horizon/aggregator.go:188-209 | The first field of the first receipt that differs decides the error. |
| `Aggregator.ChecksIff` | horizon/aggregator.go:45-90 | The checks pass exactly for a non-empty batch of distinctly signed receipts by accepted signers, on one tuple, later than a previous voucher that is on that tuple and by an accepted signer. |
| `Aggregator.ReceiptAggregator.AggregateReceipts` | horizon/aggregator.go:45-96 | The first failing check in order, else the aggregate signed with the aggregator's key, or the signing error. |
| `Aggregator.ChainCovers` | horizon/aggregator.go:45-137 | Along a chain of successful calls the value is the exact sum and the timestamp covers every receipt. |
| `Aggregator.ChainDisjoint` | horizon/aggregator.go:175-186 | Batches of a chain lie in disjoint increasing timestamp ranges, so no receipt is in two. |
| `Signature.NormalizeSignature` | horizon/signature.go:17-39 | The array rewriting computes the normal form. |
| `Signature.FlipTwice` | horizon/signature.go:41-52 | Flipping twice is the identity exactly when V is neither 26 nor 255. |
| `Signature.NormalizeIdempotent` | horizon/signature.go:17-39 | For any 65 bytes the normal form has S at most N/2 and is its own normal form. |
| `Signature.EqualIffMirror` | horizon/signature.go:55-59 | For 0 < S < N and V not 26 or 255, two signatures compare equal exactly when they are equal or mirror images. |
| `Signature.IrregularCollision` | horizon/signature.go:41-52 | With V = 26 two unrelated signatures compare equal. |
| `Signature.CheckSignaturesUnique` | horizon/aggregator.go:139-149 | Succeeds exactly when no two signatures compare equal. |
| `Signature.UniqueIffUnrelated` | horizon/aggregator.go:139-149 | For regular signatures, exactly when no two are equal or mirrored. |
| `Eip712.PadLeft` | horizon/eip712.go:127-134 | Right-aligns in zeros, or keeps the last bytes. |
| `Eip712.EncodeUint64` | horizon/eip712.go:136-140 | A 64-bit number as a 32-byte word. |
| `Eip712.EncodeNumber` | horizon/eip712.go:142-149 | A number below 2^256 as a 32-byte word. |
| `Eip712.EncodeReceiptData` | horizon/eip712.go:64-74 | The receipt's seven words in the order of its type. |
| `Eip712.EncodeVoucherData` | horizon/eip712.go:82-92 | The voucher's seven words, the last the metadata's hash. |
| `Eip712.ReceiptRoundTrip` | horizon/eip712.go:64-74 | 224 bytes from which every field is read back. |
| `Eip712.VoucherRoundTrip` | horizon/eip712.go:82-92 | 224 bytes from which every field and the metadata hash are read back. |
| `Eip712.ReceiptInjective` | horizon/eip712.go:64-74 | Equal encodings are of equal receipts. |
| `Eip712.VoucherInjective` | horizon/eip712.go:82-92 | Equal encodings are of vouchers that differ at most in metadata of equal hash. |
| `Eip712.DigestBinds` | horizon/eip712.go:96-121 | Equal signing digests mean the same message under the same domain, or exhibit a hash collision. |
| `GrtAmounts.ParseUnsigned` | grt.go:179-213 | The parsing steps give the amount of the parser's specification, or its error. |
| `GrtAmounts.ParseDecimal` | grt.go:166-227 | The same with sign and width. |
| `GrtAmounts.ParseIsFloor` | grt.go:151-227 | A digits-only decimal of any length, with or without unit, parses to the floor of its value times 10^18, or overflows exactly when that is at least 2^256. |
| `GrtAmounts.ParseWhole` | grt.go:151-227 | The same without a decimal point. |
| `GrtAmounts.NegativeWraps` | grt.go:174-224 | A minus sign before any amount, whole or with a fraction, yields the 256-bit complement of the unsigned amount. |
| `GrtAmounts.RoundTrip` | grt.go:280-341 | Decimal, text and JSON forms of every amount below 2^256 parse back to it. |
| `Sanitizer.SanitizeHeaderValues` | provider/plugin/auth_sanitizer.go:239-289 | The loop keeps the text values of a values message, or takes the payload as one raw value. |
| `Sanitizer.SanitizeHeaderEntry` | provider/plugin/auth_sanitizer.go:178-237 | The last key and values of an entry, dropped unless the key is forwarded. |
| `Sanitizer.SanitizeMessage` | provider/plugin/auth_sanitizer.go:101-176 | Errors exactly as specified; otherwise the input when nothing changed, else its clean form in some order of headers. |
| `Sanitizer.SanitizePayload` | provider/plugin/auth_sanitizer.go:54-99 | Accepts what the specification accepts, raw or framed, with the framing errors in order. |
| `Sanitizer.MarshalBack` | provider/plugin/auth_sanitizer.go:101-176 | A clean request, written in any header order, is read back whole and unchanged: nothing forwarded is lost. |
| `Sanitizer.MessageIdempotent` | provider/plugin/auth_sanitizer.go:101-176 | Sanitizing a sanitized message returns it unchanged, with the same meaning. |
| `Sanitizer.RawIdempotent` | provider/plugin/auth_sanitizer.go:54-99 | Twice is once, for raw bodies. |
| `Sanitizer.FramedIdempotent` | provider/plugin/auth_sanitizer.go:59-89 | Twice is once for framed bodies, exactly when the clean message fits the length field. |
| `SanitizerGrowth.GrownFrameRefused` | provider/plugin/auth_sanitizer.go:54-99 | A frame of 2^32-1 message bytes is accepted and rewritten to 2^32+1, and the result is refused. |
| `Sanitizer.OnlyForwarded` | provider/plugin/auth.go:136-140 | Every non-empty header key that decodes from the output of an accepted body, raw or framed, is one of the three forwarded names. |
| `WorkerPool.SessionInfo.BeginRelease` | provider/plugin/session.go:400-416 | The first caller gets all workers, later ones nothing. |
| `WorkerPool.SessionInfo.AddWorker` | provider/plugin/session.go:418-428 | A worker is recorded exactly when the session is not released. |
| `WorkerPool.SessionPool.Release` | provider/plugin/session.go:177-211 | Run alone, returns each worker once and then the slot, or does nothing if there is nothing to release. |
| `WorkerPool.NoWorkerLeak` | provider/plugin/session.go:177-321 | In every interleaving the slot goes back at most once, exactly once after the release; then every worker ever borrowed under the session is returned, on its way back, or in a call that has not ended. |
| `WorkerPool.AllReturnedAtRest` | provider/plugin/session.go:177-321 | With no call in flight all of them are returned. |
| `WorkerPool.LateBorrowIsReturned` | provider/plugin/session.go:277-287 | A call that borrowed for a session released meanwhile hands its worker back. |
| `MeteringEmitter.EventEmitter.Emit` | provider/plugin/metering.go:193-222 | Which events enter the buffer and why the others do not: no endpoint, shutting down, or a full buffer, which drops the event or panics as configured. |
| `MeteringEmitter.EventEmitter.FlushAndClose` | provider/plugin/metering.go:172-190 | The last batch is the active one followed by everything buffered, and the buffer ends empty. |
| `MeteringEmitter.MeteringConserved` | provider/plugin/metering.go:144-190 | In every run reports, active batch and buffer hold the enqueued events in order; after exit the buffer is empty and the reports are exactly the enqueued events. |
| `MeteringEmitter.FlushEnds` | provider/plugin/metering.go:166-190 | Once the flush began nothing is added, and it ends after one more turn than there were buffered events, whatever interleaves. |

## Left out

- PostgreSQL repository (provider/repository/psql): its SQL is not part of this model.
- `SessionUpdate`, the whole-session overwrite: it has no caller and would bypass the field-scoped updates.
- Keccak is a parameter; signature recovery and on-chain authorization enter each step as their result.
- Contracts, RPC, gas and transaction building: the chain is a cumulative collector, as the daemon's comment states.
- The real evaluation mutex can be orphaned when a runtime state is deleted; the exclusion the code intends is taken as given.
- The compare-and-swap loops of the repository are single atomic updates, and a session is a value because the repository clones on every access.
- Settlement records are a table per session; the source joins session and tuple into one map key.
- `cleanupSessionState` deletes an idle runtime entry; the model treats an absent entry as an idle one.
- A gateway configured without a request threshold never asks for a voucher; here the threshold is always set.
- Reclaim liveness is not claimed: `sweep` returns before it when nothing is eligible.
- Operator authorization, and the listing filters other than the state: the daemon sets none of them.
- The stream generation counter and the backoff are unbounded numbers, without 64-bit wrap-around.
- Ingress coordinator, post-stream waiting loops and progress tracking: only the control loop's answers are modelled, in `TwoParty`.
- Metadata text, log output, metrics, wall-clock timing, keep-alive loops, TLS, CLI, UI, operator listings, quotas and price conversion: easy or one-branch claims.
- Unicode lower-casing is a parameter that keeps the forwarded names; protobuf's own size limits are not modelled.
- A metering buffer of capacity zero drops every event here; a Go channel of that size could hand one over directly. A report whose remote call fails counts as handed over.
- WorkerPool: keys handed out by the provider are taken to be fresh, and a failed return call counts as a return.
- Gateway.PaymentGateway.StartSession: session id generation and the pricing fields of the response are not modelled.
