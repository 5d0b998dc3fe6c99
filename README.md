# xrpl.js request correlation and reliable submission, in Dafny

This project models two parts of the xrpl.js client.

- **The `RequestManager`** (`packages/xrpl/src/client/RequestManager.ts`) is the table of requests sent over the
  WebSocket connection that are still waiting for a response. It assigns correlation ids from a counter `nextId`,
  arms a timeout timer per request, refuses an id that is already pending, and settles each pending request at most
  once: by a response, by its timer, or by `rejectAll`. Settling removes the request from `promisesAwaitingResponse`.
- **Reliable submission** (`packages/xrpl/src/sugar/submit.ts`) covers several steps:
  - deciding whether a transaction needs signing;
  - building the `submit` request and its `fail_hard` policy;
  - requiring a `LastLedgerSequence` for `submitAndWait`;
  - polling the ledger until the transaction is validated, expired, or has failed;
  - the batch sequencer `submitAndWaitBatch`. It groups a batch by source account and runs each account's queue
    in order. It carries each reported `Sequence` (plus one) into the next item. It stops an account's queue at the
    first failure and leaves the rest of that queue `unsubmitted`.

Files and modules:

- `wrappers.dfy`, module `Wrappers`: `Option` and `Result`.
- `request_table.dfy`, module `RequestTable`: the request table as a pure state machine.
  - `Table` holds the counter, the pending map (id to timer), the armed timers (each with the id and request its
    callback captured), and ghost logs of every id admitted and every settlement delivered.
  - It defines one function per operation, and the invariant `WellFormed`. This says each pending entry owns exactly
    one armed timer, and each id has been settled as often as it was admitted, less one while it is pending.
  - It also has lemmas about runs of arbitrary events.
- `request_manager.dfy`, module `Client`: the class `RequestManager`. Its fields `nextId`,
  `promisesAwaitingResponse` and `armed` change in place. Each public method, and the timer callback `FireTimer`, is
  proved to move the class's state exactly as the matching `RequestTable` function does, and to keep `WellFormed`.
  There are two exceptions. `RejectEntry` (the body of `rejectAll`'s callback) is proved equal to `RequestTable.Reject`
  followed by `RequestTable.DeletePromise`, and keeps `WellFormed`. The private `DeletePromise` is proved equal to
  `RequestTable.DeletePromise` but keeps no invariant of its own: on its own it would leave a timer armed for an
  entry that is gone. It is only called after the entry has been settled.
- `submit.dfy`, module `Submit`: signing, the submit request, the finality poll and `submitAndWaitHelper`.
  - The poll consumes a finite trace of observations. Each observation is the ledger index `getLedgerIndex`
    returned and how the `tx` request settled.
  - A trace that runs out before the poll is decided leaves it `Polling`.
  - Each round is also judged on its own by `Verdict`. The poll's outcome is proved to be the first decisive
    verdict.
- `batch.dfy`, module `Batch`: the specification functions of the batch (`Accounts`, `Queue`, `RunQueue`,
  `RunAccounts`, `RunBatch`) and their lemmas.
  - The class `BatchResult` is the shared result object.
  - The method `SubmitAndWaitBatchHelper` is the indexed loop of the source: it uses `break`, writes the next item's
    `Sequence`, and deletes the account from `batchMap`.
  - The method `SubmitAndWaitBatch` groups the batch and runs every account. Each method is proved against the
    specification functions.

The pure predicates `Submit.IsSigned`, `Submit.IsAccountDelete` and `Submit.GetLastLedgerSequence` model
`isSigned` (submit.ts:350-356), `isAccountDelete` (submit.ts:407-410) and `getLastLedgerSequence`
(submit.ts:398-404). What they mean is stated through the contracts of `GetSignedTx`, `SubmitRequest` and
`SubmitAndWaitHelper`.

Three behaviours of the code are easy to miss, and the model keeps them:

- **A response without `status`.** `handleResponse` rejects the id with a format error, but does not return after
  that rejection (RequestManager.ts:157-160). Control goes on to the "not success" test and rejects the same id
  again. That id is gone, so `handleResponse` itself throws "No existing promise". `RequestTable.HandleResponse` and
  `Client.RequestManager.HandleResponse` model this, and their contracts state the throw.
- **A duplicate id in `createRequest`.** The id is allocated first, which advances `nextId` when the request has no
  id. The timer is then armed, and only after that is the duplicate found: the timer is cleared and the call throws
  (RequestManager.ts:95-130). The contract states that the table is unchanged except for the counter. In particular
  the timer just armed is cleared again, and every other timer stays armed as it was.
- **A caller-supplied id.** The caller's id is used whenever it is present, and the call throws if that id is
  pending (RequestManager.ts:95-100, 124-130). It never falls back to the counter.

## Model

| member | source | states |
|---|---|---|
| RequestTable.CreateRequest | packages/xrpl/src/client/RequestManager.ts:90-138 | With no `request.id` the id is the old `nextId` and `nextId` rises by one, even when creation fails; otherwise the id is the request's own and the counter is unchanged. The wire request is the request with that id. A pending id throws `AlreadyPending` and leaves the table as it was, apart from the counter. A fresh id is entered with its timer armed and is logged as admitted. |
| RequestTable.HandleResponse | packages/xrpl/src/client/RequestManager.ts:147-181 | A missing or non-key id throws a format error and changes nothing. An id that is not pending returns silently with no change. A pending id is removed, its timer cleared, and it is settled once, as `Classify` says: no status is a format error, "error" is a remote error with `error_message` else `error`, "success" resolves without the status, any other status is a format error. It throws `NoExistingPromise` exactly when the status is missing. The counter and the admission log never change. |
| RequestTable.Settle | packages/xrpl/src/client/RequestManager.ts:34-66 | The shared body of resolve and reject. It throws `NoExistingPromise` exactly when the id is not pending, and then changes nothing. Otherwise it removes the entry and its timer and logs one settlement with the given outcome; the counter and the admissions are untouched. |
| RequestTable.Resolve | packages/xrpl/src/client/RequestManager.ts:34-45 | It throws exactly when the id is not pending; otherwise the id is no longer pending and one `Resolved` settlement with the response is logged. |
| RequestTable.Reject | packages/xrpl/src/client/RequestManager.ts:54-66 | It throws exactly when the id is not pending; otherwise the id is no longer pending and one `Rejected` settlement with the error is logged. |
| RequestTable.DeletePromise | packages/xrpl/src/client/RequestManager.ts:188-190 | The pending map loses exactly the id: it is no longer pending, every other pending entry keeps its timer, and no key is added. No other part of the table changes. |
| RequestTable.Classify | packages/xrpl/src/client/RequestManager.ts:157-180 | A response resolves exactly when its status is "success", and then without its status. It is a format error with no status exactly when the status is missing, and a remote (rippled) error exactly when the status is "error". |
| RequestTable.Fire | packages/xrpl/src/client/RequestManager.ts:103-111 | The timer's callback throws exactly when its captured id is no longer pending. Otherwise that id is no longer pending and one rejection with `Timeout(request, id)` is logged. |
| RequestTable.RejectAllIn | packages/xrpl/src/client/RequestManager.ts:73-78 | The walk leaves the counter and the admissions alone. It throws only `NoExistingPromise` for an id of the walk. When it does not throw, no id of the walk is still pending. |
| RequestTable.SettlePreservesWellFormed | packages/xrpl/src/client/RequestManager.ts:34-66 | resolve/reject keep every pending entry paired with exactly one armed timer, and keep each id settled once per admission. |
| RequestTable.SettleAtMostOnce | packages/xrpl/src/client/RequestManager.ts:34-66 | Settling a pending id succeeds and logs one settlement. A second resolve or reject of that id throws `NoExistingPromise` and changes nothing. |
| RequestTable.CreatePreservesWellFormed | packages/xrpl/src/client/RequestManager.ts:90-138 | createRequest with a timer handle not already armed keeps the table well formed, in the duplicate case too. |
| RequestTable.DuplicateLeavesTableUnchanged | packages/xrpl/src/client/RequestManager.ts:124-130 | With a caller id that is already pending, createRequest returns the same table, throws `AlreadyPending`, and the timer just armed is cleared. |
| RequestTable.RejectVisit | packages/xrpl/src/client/RequestManager.ts:74-77 | One visit of rejectAll's callback settles the id once, and the `deletePromise` after the reject finds nothing left to delete. |
| RequestTable.RejectAllInSettlesEach | packages/xrpl/src/client/RequestManager.ts:73-78 | Walking distinct pending ids, rejectAll rejects each exactly once, in walk order, with the given error, and never throws. |
| RequestTable.RejectAllClears | packages/xrpl/src/client/RequestManager.ts:73-78 | rejectAll over an enumeration of the pending ids leaves no pending request and no armed timer. It logs one rejection per id and keeps the table well formed. |
| RequestTable.RejectAllInPreservesWellFormed | packages/xrpl/src/client/RequestManager.ts:73-78 | Whatever order rejectAll walks, the table stays well formed. |
| RequestTable.HandleResponsePreservesWellFormed | packages/xrpl/src/client/RequestManager.ts:147-181 | handleResponse keeps the table well formed, including the double reject after a missing status. |
| RequestTable.FireSettlesItsRequest | packages/xrpl/src/client/RequestManager.ts:103-111 | A timer that fires rejects its own request with a timeout error that carries the request and its id. It removes that entry and its timer, never throws, and keeps the table well formed. |
| RequestTable.ApplyPreservesWellFormed | packages/xrpl/src/client/RequestManager.ts:34-181 | Every possible event (a call on the table, or an armed timer firing) keeps it well formed. |
| RequestTable.RunSettlesEachAdmissionOnce | packages/xrpl/src/client/RequestManager.ts:34-181 | Over any run of events, no id is settled more often than it was admitted: each pending request is settled at most once. |
| RequestTable.InitialWellFormed | packages/xrpl/src/client/RequestManager.ts:17-25 | The empty table with `nextId` 0 is well formed. |
| Client.RequestManager.constructor | packages/xrpl/src/client/RequestManager.ts:17-25 | A new manager has `nextId` 0, nothing pending and nothing armed. |
| Client.RequestManager.Resolve | packages/xrpl/src/client/RequestManager.ts:34-45 | It moves the state exactly as `RequestTable.Resolve` does: it throws for an id that is not pending, and otherwise clears the timer, resolves and deletes. It keeps the invariant. |
| Client.RequestManager.Reject | packages/xrpl/src/client/RequestManager.ts:54-66 | The same as Resolve, for `RequestTable.Reject`. |
| Client.RequestManager.RejectAll | packages/xrpl/src/client/RequestManager.ts:73-78 | The walk visits each id pending at the call exactly once. The map and the armed timers end empty. One rejection per visited id is logged, in walk order. Nothing else changes, and the result equals `RequestTable.RejectAllIn` over that order. |
| Client.RequestManager.RejectEntry | packages/xrpl/src/client/RequestManager.ts:74-77 | The forEach callback (reject, then deletePromise) moves the state exactly as `RequestTable.Reject` followed by `RequestTable.DeletePromise` does, which is the same as the reject alone. It removes exactly its id and that id's timer, logs exactly its rejection, and keeps the invariant. |
| Client.RequestManager.CreateRequest | packages/xrpl/src/client/RequestManager.ts:90-138 | It moves the state exactly as `RequestTable.CreateRequest` does, and returns its id and wire request. |
| Client.RequestManager.HandleResponse | packages/xrpl/src/client/RequestManager.ts:147-181 | It moves the state exactly as `RequestTable.HandleResponse` does, including the missing-status throw. |
| Client.RequestManager.FireTimer | packages/xrpl/src/client/RequestManager.ts:103-111 | The timer callback moves the state as `RequestTable.Fire` does. |
| Client.RequestManager.DeletePromise | packages/xrpl/src/client/RequestManager.ts:188-190 | It moves the state as `RequestTable.DeletePromise` does: it removes the id from the map, and nothing else changes. |
| Submit.Encode | packages/xrpl/src/sugar/submit.ts:178-181 | The result is a binary blob, and it decodes to the transaction. This is the codec round-trip, which the model assumes (a blob is held as the transaction it decodes to) and does not prove. |
| Submit.Sign | packages/xrpl/src/sugar/submit.ts:394 | Signing yields a signed transaction that differs from its input only in the signing key and the signature. |
| Submit.IsSigned | packages/xrpl/src/sugar/submit.ts:350-356 | Decides signedness: a transaction, JSON or decoded from its blob, is signed when it has `SigningPubKey` or `TxnSignature`, even an empty one. A predicate with no contract of its own; `GetSignedTx` and `SubmitRequest` state what follows from it. |
| Submit.GetSignedTx | packages/xrpl/src/sugar/submit.ts:359-395 | A signed transaction (one with `SigningPubKey` or `TxnSignature`) is returned unchanged. An unsigned one with no wallet fails with `ValidationError`. Otherwise the transaction, decoded if it is a blob, is autofilled unless `autofill` is false. A rejected autofill fails the call with that rejection. Otherwise the result is the wallet's signature of the autofilled transaction: its key, and the signature computed from the wallet and that transaction, with every other field as autofill left it. Every result is signed. |
| Submit.GetLastLedgerSequence | packages/xrpl/src/sugar/submit.ts:398-404 | The `LastLedgerSequence` of a transaction, decoded if it is a blob; 0 is a horizon like any other. No contract of its own; `SubmitAndWaitHelper` states its use. |
| Submit.IsAccountDelete | packages/xrpl/src/sugar/submit.ts:407-410 | Decides whether a transaction, decoded if it is a blob, is an AccountDelete. No contract of its own; `SubmitRequest` states its use. |
| Submit.AutofillDefaultsToTrue | packages/xrpl/src/sugar/submit.ts:362-364 | An absent `autofill` behaves like `true`. With `autofill: false`, the autofill service is not consulted. |
| Submit.SubmitRequest | packages/xrpl/src/sugar/submit.ts:169-188 | An unsigned transaction is refused with `ValidationError`, and only an unsigned one. Otherwise the `tx_blob` is binary-encoded and decodes to the same transaction. `fail_hard` is true if and only if the transaction is an AccountDelete or `failHard` is set; an absent `failHard` counts as false. |
| Submit.SubmitOnce | packages/xrpl/src/sugar/submit.ts:36-50 | A failure of `getSignedTx` is returned and nothing is sent. Otherwise the request sent is `SubmitRequest` of the signed transaction with `opts.failHard`: it is signed, `fail_hard` is set exactly for an AccountDelete or `failHard: true`, and an already signed input is sent as it decodes. The result succeeds exactly when the node acknowledges, with that acknowledgement; a rejected request fails with its rejection. |
| Submit.ErrorCode | packages/xrpl/src/sugar/submit.ts:222 | `error?.data?.error`: for an error built around a response (a rippled error, an unrecognized status, an invalid id), the response's `error` field. Only those errors have a code. |
| Submit.Verdict | packages/xrpl/src/sugar/submit.ts:203-247 | One round on its own never says `Polling`. It asks for another round exactly when the ledger is not past the horizon and the query either returned an unvalidated transaction or failed with `txnNotFound`. A `Validated` verdict carries the query's validated response. A ledger past the horizon gives expiry with both ledgers and the preliminary result. |
| Submit.WaitForFinalTransactionOutcome | packages/xrpl/src/sugar/submit.ts:197-248 | The outcome is the verdict of the first decisive round, and every earlier round asked for another round. The poll stays `Polling` only when no round of the trace decides. Every round issues a `tx` query except an expiry round (latest ledger strictly above the horizon), which issues none. |
| Submit.PollRound | packages/xrpl/src/sugar/submit.ts:203-247 | One round: a latest ledger strictly above `lastLedger` fails with expiry after no query. Otherwise a validated result is final, `txnNotFound` or an unvalidated result polls again, and any other query error is terminal. |
| Submit.PollIsPrefixClosed | packages/xrpl/src/sugar/submit.ts:197-248 | A decided poll ignores every observation after its deciding round. An undecided one resumes on later observations exactly where it stopped. |
| Submit.HorizonEndsPoll | packages/xrpl/src/sugar/submit.ts:205-212 | Once an observed ledger passes the horizon, the poll is over by that round at the latest. |
| Submit.SubmitAndWaitHelper | packages/xrpl/src/sugar/submit.ts:250-280 | A failure of `getSignedTx` is the outcome, and nothing is sent. A signed transaction without `LastLedgerSequence` fails with `ValidationError` and sends nothing. Otherwise the request sent is `SubmitRequest` of the signed transaction with `opts.failHard`. A rejected submit request fails with that rejection. An acknowledged one has the outcome of `WaitForFinalTransactionOutcome` with the transaction's `LastLedgerSequence` and the acknowledged engine result. Whatever is sent is signed and has a horizon, submission never fails as unsigned, and a `Validated` outcome is a validated response to a sent transaction. |
| Batch.Accounts | packages/xrpl/src/sugar/submit.ts:147-155 | The keys of batchMap, in insertion order, with no account twice. |
| Batch.AccountsOfItems | packages/xrpl/src/sugar/submit.ts:147-153 | An account is a key of batchMap exactly when some item of the batch names it. |
| Batch.QueueMembers | packages/xrpl/src/sugar/submit.ts:147-153 | An account's queue holds exactly the batch's items that name that account. |
| Batch.QueueOfAbsentAccount | packages/xrpl/src/sugar/submit.ts:147-153 | An account that no item names has no queue items. |
| Batch.PartitionIsExact | packages/xrpl/src/sugar/submit.ts:147-153 | The queues of all the batch's accounts hold as many items as the batch, so each item is in exactly one queue. |
| Batch.Partition | packages/xrpl/src/sugar/submit.ts:136-155 | The grouping loop builds a batchMap whose keys, in insertion order, are `Accounts(items)`, and whose entry for each account is that account's items in batch order. |
| Batch.Queue | packages/xrpl/src/sugar/submit.ts:147-153 | Every item of an account's queue names that account. |
| Batch.RepairNext | packages/xrpl/src/sugar/submit.ts:325-333 | After a success, the rest of the queue keeps its length and every item but the next one unchanged. |
| Batch.Repaired | packages/xrpl/src/sugar/submit.ts:325-333 | The next item after a success keeps its options and every transaction field but `Sequence`. It gets the reported Sequence plus one, and is unchanged when no Sequence was reported. |
| Batch.RunQueue | packages/xrpl/src/sugar/submit.ts:314-344 | For one account's queue, the responses, errors and unsubmitted items add up to the queue's length. There is at most one error, and exactly one attempt per response or error. |
| Batch.QueueFailsFast | packages/xrpl/src/sugar/submit.ts:314-344 | The items before the first failure produce the responses, in order. The failing item's error is the only error. Every later item is unsubmitted, unchanged and never attempted. With no error, every item succeeded. |
| Batch.QueueRepairsSequence | packages/xrpl/src/sugar/submit.ts:325-333 | The first item is attempted as given. Each later attempted item is its queue entry with only `Sequence` replaced by the previous success's reported Sequence plus one, or left unchanged when none was reported. |
| Batch.RunAccounts | packages/xrpl/src/sugar/submit.ts:155-162 | Running the queues of some accounts yields as many entries as those queues hold, at most one error per account, and one attempt per response or error. |
| Batch.RunBatch | packages/xrpl/src/sugar/submit.ts:90-164 | The batch's result: `success.length + error.length + unsubmitted.length` equals the batch's length, `error.length` is at most the number of accounts, and there is one attempt per response or error. |
| Batch.QueueIsolated | packages/xrpl/src/sugar/submit.ts:314-344 | A queue of one account's items runs the same under any two outcomes that agree on that account's items. |
| Batch.AccountsAreIndependent | packages/xrpl/src/sugar/submit.ts:155-162 | An account's part of the result depends only on how that account's own items fare. Another account failing does not change it. |
| Batch.BatchResult.constructor | packages/xrpl/src/sugar/submit.ts:118-133 | The result starts with empty `success`, `error` and `unsubmitted`. |
| Batch.SubmitAndWaitBatchHelper | packages/xrpl/src/sugar/submit.ts:283-347 | For an account in batchMap, it appends `RunQueue` of that account's queue to the three lists and deletes the account from batchMap. For a missing account, it throws and changes nothing. |
| Batch.RunWorkers | packages/xrpl/src/sugar/submit.ts:155-163 | Starting one worker per key, in key order, fills an empty result with `RunAccounts` of those keys. |
| Batch.SubmitAndWaitBatch | packages/xrpl/src/sugar/submit.ts:90-164 | The returned lists are exactly those of `RunBatch` on the batch. |
| Batch.OneAccountPair | packages/xrpl/src/sugar/submit.ts:147-162 | A batch of two items from the same account runs as that account's single queue, in batch order. |
| Batch.TwoPayments | packages/xrpl/test/integration/submitAndWaitBatch.test.ts:102-143 | Two payments from one account both succeed, and the second is sent with the first's reported Sequence plus one. |
| Batch.PaymentThenDeleteQueue | packages/xrpl/test/integration/submitAndWaitBatch.test.ts:145-185 | A queue with a validated payment followed by a refused AccountDelete yields one response, one error and nothing unsubmitted. |
| Batch.PaymentThenRefusedDelete | packages/xrpl/test/integration/submitAndWaitBatch.test.ts:145-185 | One account with a payment, then a refused AccountDelete: one success, one error. |
| Batch.RefusedDeleteThenPayment | packages/xrpl/src/sugar/submit.ts:334-343 | One account with a refused AccountDelete, then a payment: no success, one error, and the payment unsubmitted. |
| Batch.TwoAccountLayout | packages/xrpl/test/integration/submitAndWaitBatch.test.ts:371-388 | A batch that interleaves two accounts groups into one queue per account, each in batch order. |
| Batch.TwoAccountsEachRefusedOnce | packages/xrpl/test/integration/submitAndWaitBatch.test.ts:340-407 | Two accounts, each with a payment then a refused AccountDelete: two successes and two errors. |

## Left out

- Real time is not modelled: `setTimeout` delays, `sleep`, `LEDGER_CLOSE_TIME` and `unref`. A timer is a handle, and
  it fires only as an explicit event. A poll round starts without waiting.
- Promises and concurrency are not modelled. A settled promise is an entry in a ghost settlement log. The accounts of
  a batch, which run concurrently in the client, run one after another in key order, so the order of entries across
  accounts in `success` and `error` means nothing.
- The order in which `rejectAll`'s `forEach` visits the map (JavaScript `Map` insertion order) is left open: the
  method returns, as a ghost value, the order it took.
- The wire format is not modelled: `JSON.stringify` of requests, the binary codec `encode`/`decode`, and the
  response payload (`result`) beyond the fields that are read. The codec is taken to round-trip, so an encoded blob
  is held as the transaction it decodes to.
- Foreign calls are inputs to the model:
  - `client.autofill`, the signature `wallet.sign` computes, `client.request`'s reply to `submit`, and the answers of
    `getLedgerIndex` and the `tx` request.
  - For a batch, the whole outcome of `submitAndWaitHelper` per item is an input, as a function of the item.
  - A failure of `getLedgerIndex`, and `hashes.hashSignedTx` (the `tx` query's argument), are not modelled.
- Submit.GetSignedTx: `wallet.sign` is assumed never to throw (submit.ts:394). A rejection from `client.autofill`
  (submit.ts:391) is modelled, as `AutofillFailed` with the rejection's message in place of the exception itself.
- Submit.Sign: what `wallet.sign` does is assumed rather than seen. It sets `SigningPubKey` to the wallet's key and
  `TxnSignature` to a signature computed from the wallet and the transaction, and leaves every other field as it was.
- Submit.ErrorCode: `error?.data?.error` is the `error` field of the response an error was built around: a rippled
  error, a format error for an unrecognized status, and a format error for a missing id all carry the response
  (RequestManager.ts:152, 163-166, 171-174). The other errors carry a request or nothing as their data, and the model
  gives those no code. The error classes themselves (`XrplError` and its subclasses) are not part of this model.
- Submit.WaitForFinalTransactionOutcome: the source recursion has no bound, so the model runs on a finite trace. A
  poll still undecided when the trace ends is `Polling`, where the client would keep polling.
- Batch.SubmitAndWaitBatchHelper: the `Sequence` write mutates the caller's transaction objects in place, so the
  caller sees it. The model writes into the helper's copy of the queue, so that aliasing is not modelled. The
  rethrow of a non-`Error` value (submit.ts:335-337) is not modelled either: every failure is an error.
- Error messages are not modelled: errors are kinds with the data they carry (id, request, response, ledgers,
  preliminary result), not text.
- JavaScript numbers (`nextId`, ledger indices, `Sequence`) are unbounded integers; the model has no precision limit.
- The integration test at packages/xrpl/test/integration/submitAndWaitBatch.test.ts:422-511 expects four errors
  from a fail-fast queue, which contradicts submit.ts:314-344; its own comment marks it as blocked, so no property
  is taken from it.
