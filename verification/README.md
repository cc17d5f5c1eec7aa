# Verification of the IM adapter protocols and the event-log clients

This Dafny project models the concurrent and byte-level cores of the repository and proves what they
guarantee. `dafny verify dfyconfig.toml` checks everything.

| file | what it models |
|---|---|
| `Common.dfy` | Option and Result, Python's `strip`, decoded JSON and its truthiness |
| `VendorClients.dfy` | the single message write of the Feishu, DingTalk and WeCom clients and the classification of its outcome |
| `ControlPlane.dfy` | the delivery ledger: prepare, claim, expiry, complete, unknown, fail, reconcile, one function per transaction |
| `Senders.dfy` | the Outbox worker and the delivery half of the bridge |
| `AtMostOnce.dfy` | the whole delivery protocol for one delivery id: any number of workers and bridges, crashes, lost, late and repeated reports, unsynchronised clocks, a vendor that accepts a write whose reply is lost |
| `InboxSweep.dfy` | the recovery sweep over the durable Inbox |
| `Ingress.dfy` | Stream message normalisation, the receipt check, the server's durable admission, and when an ACK may be OK |
| `RunLog.dfy` | `wait_for_run` over a growing event log, and the answer assembled from it |
| `EventView.dfy` | the Workbench event list fed by a stream and a polled listing |
| `Selection.dfy` | the Workbench selection generation and everything that completes under it |
| `AppServerClient.dfy` | the JSON-RPC client of the TypeScript SDK: requests, handshakes and reconnects |
| `TokenCache.dfy` | the access-token cache with double-checked locking |
| `Base64.dfy`, `Envelopes.dfy` | base64, CBC over an abstract block cipher, padding, framing, the WeCom and Feishu envelopes |

Concurrency is modelled as a state machine whose steps are the stretches of code between two awaits (or one
database transaction, or one JavaScript handler); a theorem about `Play`, `Run` or `Replay` is about every
sequence of such steps. Code that updates objects or loops is a class or a method proved against functions.
What the environment does (vendor replies, poll results, clocks, the order of arrival) is an argument.

Both sides of the delivery and Inbox protocols are in the repository, so the control plane's part is modelled
from its own source and not assumed.

## What was found

Some natural laws are false of the code. The code is modelled as it is; for each there is a lemma at a
concrete input and a lemma with the exact condition under which the law holds.

* `wait_for_run` makes one listing after it has read the final status, and the listing endpoint returns at
  most 500 events to a client that names no limit. A run that ends with more than 500 unread events is returned
  without its tail (`RunLog.WholeLogLawFails`; exactly: `RunLog.TerminalLogExactly`), and the answer can then be
  lost too (`RunLog.LateAnswerIsLost`; exactly: `RunLog.AnswerExactly`).
* Confirming an UNKNOWN delivery as unsent relies on the administrator alone
  (`AtMostOnce.MistakenConfirmationSendsTwice`). At-most-once survives it exactly when the delivery has no attempt
  left, or no earlier write was accepted, is in flight or can still be posted (`AtMostOnce.ConfirmUnsentExactly`).
* The server strips whitespace from the event id, the adapter compares the receipt with the unstripped id. A
  Stream event whose id has surrounding whitespace is stored but never acknowledged
  (`Ingress.PaddedIdIsNeverAcked`; exactly: `Ingress.AckExactly`).
* A vendor reply slower than the 60-second margin (or than the expiry less one second, when that is shorter) makes
  the cache hand out tokens the vendor no longer honours (`TokenCache.SlowReplyHandsOutDeadToken`; exactly:
  `TokenCache.MarginExactly`).
* A replaced WebSocket, and the connect call that opened it, still act on their successor: the close event of the
  old socket rejects the new ready promise, which ends an ordinary reconnect
  (`AppServerClient.OldCloseEndsReconnect`), or fails every request (`AppServerClient.OldCloseFailsNewRequest`); a
  malformed frame of it drops the new socket (`AppServerClient.OldFrameDropsNewSocket`), and so does an old connect
  call whose opening fails late (`AppServerClient.OldErrorDropsNewSocket`). Exactly when they do not, for one event
  and for whole runs: `AppServerClient.ForeignEventExactly`, `AppServerClient.IsolatedExactly`.
* `close()` drops the callbacks of the ready promise without calling them, so a connect call that waits for
  `server.ready` never returns (`AppServerClient.ConnectNeverReturns`; exactly:
  `AppServerClient.StrandedExactly`).
* A stream frame that is dropped can leave an event the Workbench never shows (`EventView.DroppedFrameIsLost`;
  exactly: `EventView.DroppedFrameExactly`, `EventView.LostExactly`).
* The Workbench asks for the status and the events of a run at the same time and stops at the terminal status, so
  the list it leaves can lack the run's last events (`EventView.LastEventIsNotShown`; exactly:
  `EventView.EndShowsLogExactly`).
* WeCom and Feishu cipher texts are not canonical: base64 slack, and for WeCom 16-byte multiples that are no
  32-byte multiples, are accepted too (`Envelopes.NonCanonicalIsAccepted`, `Envelopes.HalfBlockIsAccepted`,
  `Envelopes.FeishuTwinIsAccepted`; exactly: `Envelopes.ResealExactly`, `Envelopes.FeishuAcceptsOnlySealed`).

## Model

| member | source | states |
|---|---|---|
| VendorClients.HttpChannel.Send | apps/im-adapter/src/obsion_im/feishu.py:93-133 | one call puts at most one message request on the wire, exactly when it is addressed and authenticated, with that target, text, key and token, and ends in the classified outcome |
| VendorClients.RetryableExactly | apps/im-adapter/src/obsion_im/feishu.py:255-315 | a call is reported as retryable if and only if it ended before its POST (refused authentication, or a plain error of the bridge) or the POST was answered with 429, for all three vendors |
| VendorClients.DeniedExactly | apps/im-adapter/src/obsion_im/dingtalk.py:78-124 | a delivery is given up exactly when the vendor conclusively denied it, and held as unknown exactly when the answer was lost, a server error, unreadable or without receipt |
| VendorClients.NothingPlainAfterPost | apps/im-adapter/src/obsion_im/dingtalk.py:201-240 | a plain ImError or a pre-send error can only escape before the message POST |
| VendorClients.ReceiptNeedsProof | apps/im-adapter/src/obsion_im/wecom.py:205-268 | a receipt needs a bounded 2xx JSON answer with success code; it is non-empty and never DingTalk's echo of our own key |
| ControlPlane.LeasedIsValid | services/control-plane/src/obsion/application/im_delivery.py:200-238 | a lease bumps the generation, opens one attempt under it and keeps the row invariant |
| ControlPlane.PrepareKeepsValid | services/control-plane/src/obsion/application/im_delivery.py:53-166 | preparing keeps the row invariant: one numbered attempt per generation, only the last one open |
| ControlPlane.ReportKeepsValid | services/control-plane/src/obsion/application/im_delivery.py:373-541 | complete, mark-unknown and fail keep the row invariant, fenced or not |
| ControlPlane.ReconcileKeepsValid | services/control-plane/src/obsion/application/im_delivery.py:543-629 | reconciliation keeps the row invariant |
| ControlPlane.HolderSettles | services/control-plane/src/obsion/application/im_delivery.py:373-541 | the holder of a live lease is heard exactly when it may report on the delivery; its report sets the status and receipt it names, releases the lease, leaves generation and earlier attempts alone, and a new lease follows exactly for a retryable failure with attempts left after the delay |
| ControlPlane.ExpiryHolds | services/control-plane/src/obsion/application/im_delivery.py:664-704 | a lease that ran out leaves UNKNOWN, which no claim is ever offered; a live lease is left alone |
| ControlPlane.OnlyHolderChangesRow | services/control-plane/src/obsion/application/im_delivery.py:903-990 | a fenced report changes the row only when permitted, under the current generation, by the lease owner, before the lease is over |
| ControlPlane.BackoffBounds | services/control-plane/src/obsion/application/im_delivery.py:993-1001 | the retry delay lies between the base and the cap, honours vendor guidance up to the cap, and never shrinks with the attempt number |
| Senders.ReportDiscipline | apps/im-adapter/src/obsion_im/outbox.py:94-161 | one reply call, first; completion only and always with the non-blank receipt obtained; retryable reports exactly for retryable outcomes; after a receipt no failure is ever reported under a fence |
| Senders.ImOutboxWorker.Attempt | apps/im-adapter/src/obsion_im/outbox.py:94-161 | the worker's channel call and exception table have exactly the effects and the ending of the outcome |
| Senders.ImBridge.Attempt | apps/im-adapter/src/obsion_im/bridge.py:114-193 | the bridge's channel call and exception table have exactly the effects and the ending of the outcome |
| Senders.WorkerSendsTheClaim | apps/im-adapter/src/obsion_im/outbox.py:67-93 | what the worker sends is the claimed text for the claimed conversation, covered by its fingerprint, without our credential, under the claimed generation |
| Senders.BridgeSendsThePrepared | apps/im-adapter/src/obsion_im/bridge.py:70-111 | the bridge sends the prepared text to the inbound conversation, and unfenced only when the delivery is PENDING |
| Senders.ImOutboxWorker.Deliver | apps/im-adapter/src/obsion_im/outbox.py:67-161 | no effect at all for a claim that fails validation; otherwise exactly the reply and reports of its outcome, and the matching ending |
| Senders.ImOutboxWorker.MakeTrip | apps/im-adapter/src/obsion_im/outbox.py:43-55 | one trip of the loop has the effects and the ending of what the claim call found |
| Senders.ImOutboxWorker.Run | apps/im-adapter/src/obsion_im/outbox.py:41-56 | the run makes its trips in order until it returns, raises or is stopped, and returns true exactly when some claim of the run completed |
| Senders.ImBridge.Handle | apps/im-adapter/src/obsion_im/bridge.py:70-193 | nothing is sent for an inconsistent or already sent delivery; otherwise one reply and its reports under the prepared fence; success exactly with a receipt that was recorded |
| AtMostOnce.NextKeepsInv | apps/im-adapter/src/obsion_im/bridge.py:94-193 | every step of the protocol, from the control plane's own enqueue to a reconciliation, keeps the invariant that all holders but the last are harmless and that every report was made by the holder it names |
| AtMostOnce.RunKeepsInv | apps/im-adapter/src/obsion_im/outbox.py:41-161 | the invariant holds over all runs |
| AtMostOnce.WorkerTakesEnqueued | services/control-plane/src/obsion/harness/worker.py:193 | the ordinary path is among the runs: the control plane enqueues a PENDING delivery and an Outbox worker is its first holder |
| AtMostOnce.AtMostOneAcceptedWrite | apps/im-adapter/src/obsion_im/outbox.py:94-161 | in every run with any number of fenced workers and bridges, from an enqueued or a bridge-prepared delivery on, the vendor accepts at most one write per delivery id, without timing assumptions |
| AtMostOnce.LeasesOnlyAfterNonAcceptance | services/control-plane/src/obsion/application/im_delivery.py:240-371 | a lease is granted only when no earlier write was accepted and none can be any more |
| AtMostOnce.SentMeansExactlyOnce | services/control-plane/src/obsion/application/im_delivery.py:373-425 | with truthful receipts a delivery recorded as SENT was accepted exactly once |
| AtMostOnce.SentIsFinal | services/control-plane/src/obsion/application/im_delivery.py:373-541 | whatever happens next, a SENT row keeps its receipt and is never leased again |
| AtMostOnce.ConfirmUnsentExactly | services/control-plane/src/obsion/application/im_delivery.py:543-629 | confirming UNKNOWN as unsent keeps at-most-once for every continuation if and only if no attempt is left, or every holder's write was not accepted and never will be |
| AtMostOnce.MistakenConfirmationSendsTwice | services/control-plane/src/obsion/application/im_delivery.py:543-629 | a concrete run: a write is accepted, its reply is lost, the lease expires, the delivery is confirmed as unsent, and a second write is accepted |
| InboxSweep.CheckOrder | apps/im-adapter/src/obsion_im/inbox.py:190-194 | a page passes exactly when its ids strictly increase from beyond the cursor |
| InboxSweep.AttemptPage | apps/im-adapter/src/obsion_im/inbox.py:201-211 | every event of the page is attempted and the cursor follows it, success or not, until a stop is seen |
| InboxSweep.RunRound | apps/im-adapter/src/obsion_im/inbox.py:185-214 | one round is a run of the sweep automaton, and its inner loop terminates for every page the server may return |
| InboxSweep.RunInboxWorker | apps/im-adapter/src/obsion_im/inbox.py:167-223 | the worker's observable behaviour is a run of the automaton, its counters are the tally of that run, and it ends by a stop or after one round under `once`; bad arguments are refused |
| InboxSweep.AttemptsIncrease | apps/im-adapter/src/obsion_im/inbox.py:136-146 | within one sweep the attempted ids strictly increase, whatever the server returns |
| InboxSweep.StayingIsAhead | apps/im-adapter/src/obsion_im/inbox.py:183-214 | before the reset, an event that stays is attempted if the cursor passed it and still ahead if not |
| InboxSweep.SweepCovers | apps/im-adapter/src/obsion_im/inbox.py:183-214 | an event that stays RECEIVED from one cursor reset to the next is attempted exactly once in that sweep, across arrivals, disappearances, failures, failed polls and round boundaries |
| InboxSweep.CursorExactly | apps/im-adapter/src/obsion_im/inbox.py:183-214 | an attempt moves the cursor to its event, a reset clears it, and nothing else touches it: new rounds and failed polls keep it |
| InboxSweep.SweepCoversInRun | apps/im-adapter/src/obsion_im/inbox.py:167-223 | the coverage theorem for any stretch of the worker's own run between two resets |
| InboxSweep.AttemptsBounded | apps/im-adapter/src/obsion_im/inbox.py:184-214 | processed plus failed equals the attempts made, at most max_events times the rounds |
| InboxSweep.EachRoundWithinBudget | apps/im-adapter/src/obsion_im/inbox.py:184-214 | in every round, at every moment, at most max_events were attempted |
| InboxSweep.CalmPace | apps/im-adapter/src/obsion_im/inbox.py:186-214 | without arrivals or failed polls every completed round before the reset attempts exactly max_events events |
| InboxSweep.RoundBound | apps/im-adapter/src/obsion_im/inbox.py:184-214 | from a reset with N pending events, no arrivals and no failed polls, all N are attempted once the rounds have room for N, even if every process call fails |
| StreamMessage.JoinPieces | apps/im-adapter/src/obsion_im/stream.py:62-81 | the rich-text loop yields the concatenation exactly when every piece is text and the total is at most 32000, and refuses otherwise |
| StreamMessage.ConcatGrows | apps/im-adapter/src/obsion_im/stream.py:67-81 | stopping at the first overflow refuses nothing that would have fitted |
| Ingress.NormalizedIsWellFormed | apps/im-adapter/src/obsion_im/stream.py:38-90 | whatever normalisation lets through comes from the configured corporation and satisfies the server's request model after stripping |
| StreamMessage.NormalizedMeans | apps/im-adapter/src/obsion_im/stream.py:38-90 | each field of the payload comes from its own field of a message of this installation, the event id from the business key, the text from the text or all rich-text pieces |
| Ingress.ReceiptRoundTrip | apps/im-adapter/src/obsion_im/inbox.py:55-90 | the adapter reads back from the server's view of a row exactly its receipt, and nothing under another installation |
| Ingress.ReceiveIsDurable | services/control-plane/src/obsion/application/im_inbox.py:531-572 | an accepting response shows a row that is in the store under that event with the same fingerprint; rows are never changed, removed or doubled |
| Ingress.AcceptExactly | services/control-plane/src/obsion/application/im_inbox.py:531-572 | the request is accepted exactly when authorised, well formed, without content conflict and, for a new event, from a bound sender |
| Ingress.StepKeepsInv | apps/im-adapter/src/obsion_im/stream.py:108-129 | every delivery, request, response, timeout and processing step keeps the admission invariant and only extends the store |
| Ingress.AckMeansDurable | apps/im-adapter/src/obsion_im/stream.py:108-129 | in every run an OK acknowledgement implies one durable row for that installation and that very event id with the message's fingerprint, then and ever after |
| Ingress.AckExactly | apps/im-adapter/src/obsion_im/inbox.py:129-134 | a served message is stored exactly when admitted, and acknowledged exactly when, besides, its event id has no surrounding whitespace |
| Ingress.AnsweredExactly | apps/im-adapter/src/obsion_im/inbox.py:129-134 | a message that is admitted and answered is stored, and acknowledged exactly when its id has no surrounding whitespace |
| Ingress.PaddedIdIsNeverAcked | apps/im-adapter/src/obsion_im/stream.py:31-35 | a concrete Stream message that passes normalisation, is stored, sees its response, and is not acknowledged |
| Ingress.StoredWithoutAck | apps/im-adapter/src/obsion_im/stream.py:114-127 | the converse fails: with the response lost, a stored message stays unacknowledged |
| RunLog.NextPage | services/control-plane/src/obsion/persistence/events.py:203-222 | the listing returns exactly the slice of the log that follows what was read, one page of it |
| RunLog.StaysTracked | apps/cli/src/obsion_cli/runtime.py:309-319 | whatever the batches contain, no event id is kept twice |
| RunLog.AbsorbSlice | apps/cli/src/obsion_cli/runtime.py:309-319 | reading on from a prefix of the log takes over the next slice completely and in order |
| RunLog.Absorb | apps/cli/src/obsion_cli/runtime.py:309-319 | the de-duplication loop computes that step |
| RunLog.ReadFollows | apps/cli/src/obsion_cli/runtime.py:301-322 | over a growing log, what was read after each poll is the prefix that the pages reached |
| RunLog.WaitForRun | apps/cli/src/obsion_cli/runtime.py:301-322 | the wait ends at the first finished status; its events repeat no id and, over a growing log, are exactly the prefix that the pages reached |
| RunLog.TerminalLogExactly | apps/cli/src/obsion_cli/runtime.py:301-322 | for a terminal run the events the wait returns are a prefix of the whole log, and all of it if and only if at most 500 events were unread at the last poll |
| RunLog.WholeLogLawFails | services/control-plane/src/obsion/api/events.py:26-40 | a run that ends with 501 unread events is returned incomplete |
| RunLog.AnswerFrom | apps/cli/src/obsion_cli/runtime.py:360-380 | the answer is the concatenation of all string deltas in order, or else the first artifact text |
| RunLog.FollowAnswer | apps/cli/src/obsion_cli/runtime.py:281-298 | the answer after a wait is that of the events the wait returned |
| RunLog.AnswerExactly | apps/cli/src/obsion_cli/runtime.py:360-380 | part of a log gives the answer of the whole exactly when, speaking, the rest adds nothing, or, silent, the whole is silent or the first artifact text says just what the run said |
| RunLog.AnswerOfTerminalRun | apps/cli/src/obsion_cli/runtime.py:281-322 | end to end: with at most one page unread the answer speaks every delta of the whole log once and in order; beyond that it is the answer of the whole log exactly under that condition |
| RunLog.LateAnswerIsLost | apps/cli/src/obsion_cli/runtime.py:360-380 | a concrete run that said "hi" in its 501st unread event and is answered with an artifact's text |
| EventView.MergePageLaw | apps/web/src/components/workbench.tsx:692-707 | merging a page keeps the list sorted and without repeats and adds exactly the events whose id is new |
| EventView.MergeOneIsPage | apps/web/src/components/workbench.tsx:621-634 | the stream update equals the merge of a page of one |
| EventView.NextKeepsInv | apps/web/src/components/workbench.tsx:615-748 | every append, frame, listing, response and failure keeps the list sorted, distinct, from this log, and complete up to the cursor |
| EventView.ViewStaysConsistent | apps/web/src/components/workbench.tsx:615-748 | the same over all interleavings, including responses overtaken by frames |
| EventView.UncutPageShowsLog | apps/web/src/components/workbench.tsx:650-707 | when a page reached the end of the log, the list shown is the log itself |
| EventView.AnswerShowsLogExactly | apps/web/src/components/workbench.tsx:661-707 | what a response leaves is the whole log exactly when every event past its page had been shown before |
| EventView.WatchKeepsInv | apps/web/src/components/workbench.tsx:650-748 | the same list invariants over whole polling loops beside a run that ends, and a terminal run's log is final |
| EventView.EndShowsLogExactly | apps/web/src/components/workbench.tsx:661-748 | when the loop ends on a terminal status it receives nothing more, and the list it leaves is the run's whole log if and only if every event past its last page had been shown before |
| EventView.LastEventIsNotShown | apps/web/src/components/workbench.tsx:661-724 | a concrete run whose loop ends with an empty list: listing served, event appended, run ended, status served |
| EventView.MissedForGood | apps/web/src/components/workbench.tsx:621-634 | an event passed by the stream and the cursor, not on the page in flight and not shown, is never shown later |
| EventView.LostExactly | apps/web/src/components/workbench.tsx:621-707 | and only such an event: every other has a continuation that shows it |
| EventView.DroppedFrameExactly | apps/web/src/components/workbench.tsx:621-634 | when a frame is dropped and the next one arrives, the list stays complete up to the cursor if and only if the event was shown, and the event is lost for good if and only if it was neither shown nor on the page in flight |
| EventView.DroppedFrameIsLost | apps/web/src/components/workbench.tsx:621-634 | a concrete run from the start that loses an event |
| Selection.ApplyKeepsInv | apps/web/src/components/workbench.tsx:650-723 | a completion, whatever it carries, leaves a screen that belongs to one run |
| Selection.NextKeepsInv | apps/web/src/components/workbench.tsx:245-358 | every user action, completion, failure and frame, also one that arrives after its poll loop returned, keeps the screen coherent and one current operation |
| Selection.ScreenStaysCoherent | apps/web/src/components/workbench.tsx:1371-1396 | in every reachable state events, steps, evidence, memories, conversation, claims and artifacts belong to the run shown, and it to the workspace shown |
| Selection.OutdatedChangesNothing | apps/web/src/components/workbench.tsx:599-749 | nothing begun under an older selection generation ever changes the screen |
| AppServerClient.StepKeepsInv | packages/sdk-ts/src/index.ts:353-415 | every call, socket event, frame and resumed connect call keeps the books (ids fresh and rising, each issued id pending or settled once, pending ones sent on the current socket) and the handshakes (the callbacks hold the unsettled ready promise of the connect call whose socket is in use) |
| AppServerClient.EveryRunKeepsTheBooks | packages/sdk-ts/src/index.ts:353-643 | the same over all runs and reconnects |
| AppServerClient.ResponseSettlesItsOwnRequest | packages/sdk-ts/src/index.ts:619-628 | a response settles exactly the pending request with its id, and nothing otherwise |
| AppServerClient.LateFrameIsIgnored | packages/sdk-ts/src/index.ts:619-628 | a late response of an earlier connection changes nothing |
| AppServerClient.AnswersComeFromTheirSocket | packages/sdk-ts/src/index.ts:595-643 | with a server that answers on the socket of the request, every response used came in on the socket its request went out on |
| AppServerClient.CloseSettlesEverything | packages/sdk-ts/src/index.ts:595-602 | after close every request ever issued is settled exactly once and stays so |
| AppServerClient.ForeignEventExactly | packages/sdk-ts/src/index.ts:353-392 | an event of another connect call or of its socket leaves the client and its handshake as they were exactly when it is harmless: a close only with nothing pending and no ready promise held, a `server.ready` only with none held, a malformed frame or a failing connect call only with nothing to lose, a resumed connect call only if it sends nothing |
| AppServerClient.IsolatedExactly | packages/sdk-ts/src/index.ts:353-643 | over runs, handshakes included: replaced sockets and their connect calls never influence the client, at any moment, if and only if each of their events met that condition |
| AppServerClient.OldCloseFailsNewRequest | packages/sdk-ts/src/index.ts:367-376 | a concrete run in which the close event of a replaced socket rejects a request of its successor |
| AppServerClient.OldFrameDropsNewSocket | packages/sdk-ts/src/index.ts:604-618 | a concrete run in which a malformed frame of a replaced socket drops its successor |
| AppServerClient.OldCloseEndsReconnect | packages/sdk-ts/src/index.ts:366-391 | connect, close, connect, then the close event of the old socket: whatever follows in the call, the new connect call fails and drops its open socket without a request ever sent |
| AppServerClient.OldErrorDropsNewSocket | packages/sdk-ts/src/index.ts:365-391 | a concrete run in which the connect call of a closed client drops the socket of its successor when its own opening fails |
| AppServerClient.CloseStrandsConnect | packages/sdk-ts/src/index.ts:595-602 | a connect call that waits for `server.ready` when close is called never goes on, in any continuation |
| AppServerClient.StrandedExactly | packages/sdk-ts/src/index.ts:355-379 | a connect call that waits for its unsettled ready promise waits in every continuation if and only if the callbacks are no longer its own |
| AppServerClient.ConnectNeverReturns | packages/sdk-ts/src/index.ts:595-602 | a concrete run: connected, opened, closed before `server.ready`, and nothing that follows ends the wait |
| AppServerClient.ConnectReturnsOnProof | packages/sdk-ts/src/index.ts:377-391 | a connect call returns only when its own initialize request was answered with a result |
| AppServerClient.ObsionAppServerClient.Connect | packages/sdk-ts/src/index.ts:353-376 | connect up to its first await takes the step of the model: it holds the new ready promise and installs the new socket, if the factory made one, and is refused, without any effect, while a socket is held |
| AppServerClient.ObsionAppServerClient.AfterOpened | packages/sdk-ts/src/index.ts:377-391 | after the await on the opening the call waits for the ready promise, or closes the client and fails |
| AppServerClient.ObsionAppServerClient.AfterReady | packages/sdk-ts/src/index.ts:379-391 | after the await on the ready promise the initialize request leaves on the socket in use, is refused, or the client is closed |
| AppServerClient.ObsionAppServerClient.AfterInitialize | packages/sdk-ts/src/index.ts:386-391 | the call returns exactly when its initialize request was answered with a result, and otherwise closes the client |
| AppServerClient.ObsionAppServerClient.Send | packages/sdk-ts/src/index.ts:393-415 | a request takes the next id and is pending, unless there is no open socket or sending throws |
| AppServerClient.ObsionAppServerClient.Request | packages/sdk-ts/src/index.ts:393-415 | a request takes the step of the model; the id returned was never issued before and is pending, and a refused one leaves the pending map alone |
| AppServerClient.ObsionAppServerClient.Close | packages/sdk-ts/src/index.ts:595-602 | closing takes the step of the model: socket and ready callbacks dropped, every pending promise rejected |
| AppServerClient.ObsionAppServerClient.FailAll | packages/sdk-ts/src/index.ts:640-643 | every pending promise is rejected and the map emptied |
| AppServerClient.ObsionAppServerClient.SettleCallbacks | packages/sdk-ts/src/index.ts:372-373 | the ready promise held, if any, is settled and its callbacks dropped |
| AppServerClient.ObsionAppServerClient.HandleClose | packages/sdk-ts/src/index.ts:366-375 | the close event of any socket the client ever had rejects the ready promise held and every pending request |
| AppServerClient.ObsionAppServerClient.HandleMessage | packages/sdk-ts/src/index.ts:604-638 | each kind of frame takes the step of the model, `server.ready` settling the ready promise held |
| TokenCache.StepKeepsInv | apps/im-adapter/src/obsion_im/dingtalk.py:131-154 | every check, grant, refusal, close and clock step keeps single flight, spacing, and soundness of what was served |
| TokenCache.EveryRunIsSingleFlight | apps/im-adapter/src/obsion_im/feishu.py:175-198 | over all runs: one authentication at a time, none while a stored token is unexpired and not closed away, and every caller got a token unexpired at its check or the one it just fetched itself, in an authentication with no other in between |
| TokenCache.ResultsAreFinal | apps/im-adapter/src/obsion_im/wecom.py:137-160 | what a caller was given never changes |
| TokenCache.MarginExactly | apps/im-adapter/src/obsion_im/dingtalk.py:148-154 | cached tokens are handed out only while the vendor honours them if and only if the reply took at most the smaller of 60 and expiry - 1 seconds |
| TokenCache.PromptRunsHandOutHonouredTokens | apps/im-adapter/src/obsion_im/feishu.py:175-198 | in every run with prompt replies no cached token is handed out past its vendor expiry |
| TokenCache.SlowReplyHandsOutDeadToken | apps/im-adapter/src/obsion_im/wecom.py:153-160 | for every expiry and every slower reply there is a run that hands out a dead token |
| TokenCache.AccessToken.FirstCheck | apps/im-adapter/src/obsion_im/dingtalk.py:132-133 | the check before the lock returns the cached token while it is unexpired, else the caller waits |
| TokenCache.AccessToken.SecondCheck | apps/im-adapter/src/obsion_im/dingtalk.py:134-136 | the check under the lock either serves the token and releases the lock or begins the one authentication |
| TokenCache.AccessToken.Accept | apps/im-adapter/src/obsion_im/dingtalk.py:146-154 | a usable reply is cached and unexpired, an unusable one leaves the cache alone, and the lock is released |
| TokenCache.AccessToken.Close | apps/im-adapter/src/obsion_im/dingtalk.py:126-129 | closing empties the cache |
| Base64.RoundTrip | apps/im-adapter/src/obsion_im/signatures.py:161 | decoding undoes encoding for every byte string |
| Base64.CanonicalExactly | apps/im-adapter/src/obsion_im/signatures.py:123-126 | encoding undoes decoding if and only if the text is canonical |
| Base64.OnePad | apps/im-adapter/src/obsion_im/signatures.py:108-117 | with one padding character appended, 4n + 3 characters decode to 3n + 2 bytes exactly when all are data |
| Base64.TwinDecodes | apps/im-adapter/src/obsion_im/signatures.py:123-126 | every canonical text that ends in one padding character has another that decodes to the same bytes |
| Cbc.XorIsBitwise | apps/im-adapter/src/obsion_im/signatures.py:160 | the whitening of CBC is exclusive or, bit by bit |
| Cbc.DecryptOfEncrypt | apps/im-adapter/src/obsion_im/signatures.py:160-161 | CBC decryption undoes encryption over any block permutation |
| Cbc.EncryptOfDecrypt | apps/im-adapter/src/obsion_im/signatures.py:129-130 | CBC encryption undoes decryption |
| Envelopes.FillerExactly | apps/im-adapter/src/obsion_im/signatures.py:156-158 | the pad length is the only one from 1 to k that completes the last k-byte block |
| Envelopes.UnpadOfPad | apps/im-adapter/src/obsion_im/signatures.py:133-136 | removing the padding gives back what was padded, whatever it ended with |
| Envelopes.UnpadAccepts | apps/im-adapter/src/obsion_im/signatures.py:133-136 | what is accepted is the plain text and 1 to k equal padding bytes, all slices in range |
| Envelopes.PadOfUnpad | apps/im-adapter/src/obsion_im/signatures.py:133-159 | padding again restores the buffer exactly when it was whole k-byte blocks |
| Envelopes.BigEndianInverse | apps/im-adapter/src/obsion_im/signatures.py:155 | the length field reads back as written |
| Envelopes.BigEndianUnique | apps/im-adapter/src/obsion_im/signatures.py:140 | and is written back as read |
| Envelopes.UnframeOfFrame | apps/im-adapter/src/obsion_im/signatures.py:137-145 | parsing a frame gives its message and receive id |
| Envelopes.FrameOfUnframe | apps/im-adapter/src/obsion_im/signatures.py:129-145 | re-framing nonce, length, message and receive id of an accepted plain text gives back exactly its bytes |
| Envelopes.FramingIsInjective | apps/im-adapter/src/obsion_im/signatures.py:155 | equal frames have equal nonce, message and receive id |
| Envelopes.KeyAcceptedExactly | apps/im-adapter/src/obsion_im/signatures.py:108-117 | a key is usable if and only if it is 43 characters of the base64 alphabet |
| Envelopes.WeComRoundTrip | apps/im-adapter/src/obsion_im/signatures.py:120-161 | every message under 4 GiB, receive id and nonce survives encryption and decryption under every usable key; encryption fails exactly otherwise |
| Envelopes.AcceptedIsSealedFrame | apps/im-adapter/src/obsion_im/signatures.py:120-145 | an accepted cipher text is the CBC encryption of a frame and its padding, nothing else |
| Envelopes.ResealExactly | apps/im-adapter/src/obsion_im/signatures.py:120-161 | sealing again what was opened restores the text if and only if it was canonical base64 of whole 32-byte blocks |
| Envelopes.NonCanonicalIsAccepted | apps/im-adapter/src/obsion_im/signatures.py:120-145 | a concrete text that is not canonical base64 and opens |
| Envelopes.HalfBlockIsAccepted | apps/im-adapter/src/obsion_im/signatures.py:133-136 | a 12-byte message padded to 48 bytes opens, though encryption never writes it |
| Envelopes.FeishuRoundTrip | apps/im-adapter/src/obsion_im/signatures.py:89-105 | an event sealed with an IV prefix and 16-byte padding decrypts to itself |
| Envelopes.FeishuAcceptsOnlySealed | apps/im-adapter/src/obsion_im/signatures.py:89-105 | the decrypter accepts only sealed events, restored exactly when the base64 was canonical |
| Envelopes.FeishuTwinIsAccepted | apps/im-adapter/src/obsion_im/signatures.py:89-105 | a sealed event of under 16 bytes opens with its last character changed too |

## Left out

- AtMostOneAcceptedWrite: covers fenced holders only (the unfenced bridge path promises no at-most-once), takes HTTP 429 to mean that the write was not accepted, and assumes that administrators confirm a delivery that has attempts left as unsent only when no write can be accepted any more; ConfirmUnsentExactly shows that exactly this is needed. Confirming an exhausted delivery, or confirming as sent, is unrestricted.
- SentMeansExactlyOnce: additionally assumes that a vendor message id, received or confirmed by an administrator, belongs to an accepted write.
- ViewStaysConsistent: assumes that no frame of a subscription is dropped; DroppedFrameExactly shows what each dropped frame costs.
- EndShowsLogExactly: is about a loop that ends on a terminal status and then stops its stream; an end on WAITING_USER, after which the run goes on, and frames before the stream's promise resolves are not covered by it.
- LateFrameIsIgnored: assumes that the server answers a request on the socket it came in on, as do the theorems on events of another socket.
- AppServerClient.ObsionAppServerClient.AfterReady: takes the state of the socket in use (`readyState`) and whether sending throws as inputs; a resumed connect call may go on at any moment after its await was settled, which includes the order of the microtask queue.
- The notification listeners of the App Server client, the text of its errors, and an exception thrown by the `close` method of a socket itself.
- SweepCovers: takes a returned list to be the true page of the RECEIVED events at that moment; the order theorems do not.
- WeComRoundTrip: takes AES as an arbitrary permutation of 16-byte blocks per key, and text as its UTF-8 bytes.
- AckMeansDurable: takes SHA-256 as a function (equal fingerprints, not equal contents) and the database commit as durable.
- EveryRunIsSingleFlight: lets any waiter take the free lock, so it does not use asyncio's order of waiters.
- Which of several offered deliveries a claim picks, its rate limits, audit records and the reconstruction of the delivery text.
- HTTP, TLS and WebSocket plumbing, retry loops of read requests, configuration, command lines, logging and health checks.
- Signatures, SHA and HMAC internals, XML and envelope field extraction.
- Unicode whitespace beyond ASCII, the printed form of JSON containers, fractional JSON numbers, and JavaScript numbers beyond 2^53.
- Base64 padding after complete groups is ignored as in Python 3.12; other library versions may refuse it.
- Sleeping and back-off in the loops; the number of consecutive failures after which the Workbench stops polling, and its stream indicator.
- React state is read as current inside one handler; the message list, drafts and attachments of the Workbench are not on the modelled screen.
- An event whose `run_sequence` is missing or is no integer.
- The polling loops of the desktop and IDE clients, which follow the same pattern as `wait_for_run`.
- The processing of an Inbox message into a turn and a run; only its effect on the row is modelled.
