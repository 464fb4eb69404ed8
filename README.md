# Order-processing pipeline: a Dafny model

This project models the decision logic and the small state machines of an order-processing server (`server.js`). The server listens for newly inserted orders and handles each one in five steps:

1. it fetches a bearer token;
2. it downloads the user's file;
3. it uploads the file to object storage;
4. it fetches a session cookie;
5. it submits the file's public URL for a "deep check".

When the check returns a job id, the server polls the job once a minute. Once the job reports `done`, it post-processes the two report PDFs and marks the order `completed`. On a timeout, on an error thrown by the five steps, or when post-processing fails, it marks the order `failed` and refunds its stored owner according to the payment source. A failed status query is ignored until the next tick. A supervisor starts and stops the change listener, and after a subscription error it reconnects with exponential backoff.

The network, database, filesystem and timers are inputs:

- An awaited call that resolves or throws is a `Js.Result`.
- A call whose result depends on what is sent is a function parameter: the download, the storage upload, the deep check, the job query and the PDF post-processor.
- A database write that may fail is a `writeOk`/`refundOk` flag.
- Time is the `now` or `elapsed` value in milliseconds that a tick receives.

Modules:

- `Js` (js.dfy): JavaScript primitive values, truthiness, `a || b || c` chains, template-literal stringification, and HTTP client errors.
- `Credentials` (credentials.dfy): token and cookie sanitisation, `trim()` followed by removing `\r?\n`.
- `Store` (store.dfy): orders and users, the order update, `refundCredit`, and `finalizeOrder` as pure functions over a `Db` value. The `Datastore` class's methods are proved against those functions.
- `Polling` (polling.dfy): the decision one poll tick makes, the `PollTask` class (`startedAt` and the cancel flag), and the bounded-time lemmas.
- `Listener` (listener.dfy): the backoff delay and the `Listener` class. The class holds the running flag, the stream handle, the retry count and the scheduled reconnects, and has the start, stop, status and error handlers.
- `Workflow` (workflow.dfy): `handleNewOrder`. This covers the fallback chains, the failure reason, when polling starts, and marking the order failed with a refund on error.

Behaviour of the code worth knowing:

- The maximum poll wait is 600000 ms, which is ten minutes, although the comment beside the constant says six.
- A credential fetch that returns empty text does not fail. The token is then `""`.
- The stop endpoint does not cancel a reconnect that is already scheduled (`StopEndpoint` keeps `pending`). Such a reconnect still fires later and restarts the listener.
- An order whose deep-check response carries no truthy job id stays `pending`. No refund is made.

## Model

| member | source | states |
|---|---|---|
| Js.Or | server.js:328 | a chain of JavaScript or-operators yields one of its operands, and its result is truthy iff some operand is |
| Js.OrFirstTruthy | server.js:347 | the chain yields the first truthy operand |
| Js.OrAllFalsy | server.js:370 | with no truthy operand, the chain yields its last operand |
| Credentials.TrimStartSpec | server.js:292 | `TrimStart`, the leading half of `trim()`: the result is a suffix of the input; everything dropped is whitespace; it does not start with whitespace |
| Credentials.TrimEndSpec | server.js:292 | `TrimEnd`, the trailing half of `trim()`: the result is a prefix of the input; everything dropped is whitespace; it does not end with whitespace |
| Credentials.TrimBounds | server.js:292 | `Trim` (`trim()`) keeps exactly the slice between two bounds, with only whitespace before the first bound and after the second |
| Credentials.TrimIsMiddle | server.js:292 | `trim()` yields a contiguous middle of the input, with only whitespace outside it |
| Credentials.TrimEnds | server.js:292 | a non-empty `trim()` result neither starts nor ends with whitespace |
| Credentials.StripNewlinesRemovesLf | server.js:292 | `StripNewlines` (`replace(/\r?\n/g, '')`) leaves no LF and never lengthens the text |
| Credentials.StripNewlinesPieces | server.js:292 | a lone LF is removed, a lone CR or any other character is kept, and a CR-LF pair is removed |
| Credentials.StripNewlinesAppend | server.js:292 | a cut that does not separate a CR from an LF right after it splits the result the same way; with `StripNewlinesPieces` this fixes the result of every text, so every character other than a removed line break is kept, in order |
| Credentials.StripNewlinesExample | server.js:292 | `"a\r\nb\rc\nd"` becomes `"ab\rcd"`, and `"\r\r\n"` becomes `"\r"` |
| Credentials.StripNewlinesNoLf | server.js:305 | text without LF is left unchanged |
| Credentials.StripNewlinesKeepsLast | server.js:292 | a last character that is neither CR nor LF stays last |
| Credentials.SanitizeClean | server.js:292 | `Sanitize`, `trim()` followed by removing `\r?\n`: a sanitised token or cookie has no LF and no whitespace at either end |
| Credentials.SanitizeIdempotent | server.js:305 | sanitising twice equals sanitising once |
| Store.Apply | server.js:418 | an update sets `status` and only its own fields (the failure reason, or both report URLs together); owner and payment source are kept |
| Store.ApplyToNewIsTerminal | server.js:460-472 | one update of a new pending order makes it terminal: failed iff a reason is present, completed iff both URLs are present, and the two URLs are set together |
| Store.Refund | server.js:202-214 | "regular" adds exactly 1 to `checks`; "daily" subtracts exactly 1 from `dailyCreditsUsedToday`; any other source, or an unknown user, changes nothing; no other user or field changes |
| Store.Finalized | server.js:416-426 | the order is updated when it exists and the write succeeds; users change only for a failed update whose updated document names a user, and then by `Refund` with that document's owner and payment source |
| Store.CompletedNeverRefunds | server.js:420 | a completed finalisation leaves every user unchanged |
| Store.FailedRegularRefundsOneCheck | server.js:396-400 | a failed finalisation of a "regular" order gives its stored owner exactly one check back, changes no other user, and records the reason |
| Store.Datastore.RefundCredit | server.js:202-214 | the users become `Refund(old users, id, source)` when the write succeeds; orders are unchanged |
| Store.Datastore.FindByIdAndUpdate | server.js:418 | returns the updated document iff the order exists and the write succeeds, and stores exactly that document |
| Store.Datastore.Finalize | server.js:416-426 | the new store state is `Finalized` of the old one |
| Polling.First | server.js:447-448 | the inspected record is `data[0]` for a non-empty list, the object itself for an object, and absent otherwise |
| Polling.TickStep | server.js:428-481 | with `IsDone` the check `first.turnitin_status === 'done'`: elapsed > 600000 always times out with "Failed to generate report, try again later!"; elapsed <= 600000 never does, and finishes iff the query succeeded with status "done" |
| Polling.DoneRule | server.js:447-474 | on "done", the order is completed with both post-processed URLs iff both post-processing calls succeed, each with its own report URL and label; otherwise it fails with "Failed to process report PDFs" |
| Polling.NotDoneWaits | server.js:447-480 | a query error or a status other than "done" changes nothing while time remains |
| Polling.FirstFinish | server.js:483-485 | the index of the first finishing tick: every earlier tick waits, and that tick finishes |
| Polling.TimeoutBound | server.js:411-435 | with timers that may fire up to `late` ms late (the first tick within one interval plus `late`, consecutive ticks at most one interval plus `late` apart), the order is finalised no later than the maximum wait plus one interval plus `late`, whatever the job does |
| Polling.FinishByFirstLateTick | server.js:430-435 | whatever the timing, the order is finalised no later than the first tick that sees more than 600000 ms elapsed |
| Polling.FirstLateTick | server.js:430-435 | in such a schedule, the first tick past the maximum wait is at most one interval plus `late` past it, and every earlier tick is within it |
| Polling.Schedule | server.js:413-485 | tick i sees i minutes plus the registration delay elapsed; for the immediate tick 0, which runs before the timer is registered, `delay` stands for the at most `delay` it sees |
| Polling.NeverDoneTimesOut | server.js:411-435 | with one tick a minute and a job that is never done, the order times out at the twelfth tick when there is no registration delay, and at the eleventh tick for any positive delay up to one interval; every earlier tick waits |
| Polling.PollTask.constructor | server.js:409-414 | a task starts uncancelled, with its job id, token, order id and start time |
| Polling.PollTask.Poll | server.js:428-481 | the timer is cancelled iff the tick finishes, and the store becomes `Finalized` with that tick's update, or stays unchanged |
| Listener.Pow2 | server.js:517 | powers of two are positive |
| Listener.Pow2Monotone | server.js:517 | powers of two are non-decreasing |
| Listener.Backoff | server.js:517 | the delay is `min(30000, 1000·2^n)`: it is at most `1000·2^n`, equals either that or the cap, and lies between 1000 and 30000 |
| Listener.BackoffMonotone | server.js:517 | delays are non-decreasing in the retry count |
| Listener.BackoffDoubles | server.js:517 | each delay doubles the previous one until it reaches the 30000 cap |
| Listener.BackoffCapped | server.js:517 | from retry count 5 on, the delay is 30000 |
| Listener.Listener.constructor | server.js:23-24 | the listener starts stopped, with no stream and no reconnect scheduled |
| Listener.Listener.StartChangeStream | server.js:490-501 | while running, a start changes nothing; otherwise it opens a fresh stream, sets running, and records the retry count |
| Listener.Listener.StopChangeStream | server.js:527-534 | stopping leaves no stream and running false; scheduled reconnects are kept |
| Listener.Listener.StartEndpoint | server.js:144-151 | succeeds iff the listener was stopped, and then starts with retry count 0 on the next handle; otherwise changes nothing |
| Listener.Listener.StopEndpoint | server.js:153-160 | succeeds iff the listener was running, and then clears the handle and the flag; otherwise changes nothing |
| Listener.Listener.Status | server.js:140-142 | the status reports the running flag, which is set iff a stream is open |
| Listener.Listener.OnStreamError | server.js:508-523 | an error clears the flag and the handle; a reconnect with count n+1 and delay `Backoff(n)` is scheduled iff n < 10 |
| Listener.Listener.FireRestart | server.js:520 | a fired reconnect is removed from the schedule and starts the stream with its count on the next handle, unless a stream is already running, which it then leaves as it was |
| Listener.EveryStreamFails | server.js:490-523 | starting a stopped listener and letting every subscription fail, with each reconnect fired, brings exactly 10 automatic restarts with retry counts 1, 2, ..., 10, after which nothing is scheduled |
| Workflow.FileName | server.js:328 | the file name is `userFile.filename` if non-empty, else `fileName` if non-empty, else "file"; never empty |
| Workflow.StorageKey | server.js:347 | the storage key is the first truthy of `Key`, `key` and `name`, else the file name; always truthy |
| Workflow.JobId | server.js:370 | the job id is the first truthy of `history_id`, `historyId` and `id`, and is truthy iff one of them is |
| Workflow.FailureReason | server.js:388-393 | with `ErrorCode` reading `error.response.data.error`: an `InvalidKey` error code gives the fixed filename message; another truthy code gives that code; otherwise the error message |
| Workflow.Submit | server.js:318-370 | every path of the try block: a failed token fetch, a missing `userFile` (the TypeError), a failed download or a failed upload ends the block with that error; after a successful upload, the block ends as `AfterUpload` says, with the sanitised token, `FileName(order)` and `PublicUrl` of the upload response's storage key |
| Workflow.Transfer | server.js:323-370 | a missing `userFile` throws the TypeError and a failed download or upload throws its error; after a successful upload the block ends as `AfterUpload` says, with `FileName(order)` and the public URL of the upload response's storage key |
| Workflow.Upload | server.js:333-370 | the upload goes to `UploadUrl`, the base path plus the file name; a failed upload throws its error; otherwise the block ends as `AfterUpload` says, with `PublicUrl` of the storage key of the upload's response |
| Workflow.DeepCheck | server.js:351-370 | `AfterUpload`: a failed cookie fetch or deep check throws its error; when both succeed, the block ends submitted with the given token, file name and public URL, and with `JobId` of the deep check's response to that URL and the sanitised cookie |
| Workflow.Decide | server.js:372-393 | polling starts iff a submission returned a truthy job id; the order fails iff the try block threw, with `FailureReason` of the error |
| Workflow.PollingNeedsJobId | server.js:370-377 | polling starts only with a truthy job id and the sanitised token; a falsy job id leaves the order untouched |
| Workflow.TrySubmit | server.js:318-370 | the step-by-step try block ends exactly as `Submit` says |
| Workflow.HandleNewOrder | server.js:315-406 | a fresh uncancelled poll task with the job id, token, order id and start time, or nothing; on error the store becomes `Finalized` with the failure reason, refunding the owner read from the updated stored order |
| Workflow.InvalidKeyScenario | server.js:388-400 | a "regular" order whose upload fails with `InvalidKey` ends failed with the filename message, and its owner gets one check back |

## Left out

- HTTP plumbing is not modelled: the Express wiring, `/health` and the control page. Only the guards of the start, stop and status endpoints are kept.
- The Mongoose connection, the schemas and `Order.watch` are not modelled; the collections are maps. An insert event is handled by calling `HandleNewOrder` with the inserted document.
- Concurrency is not modelled. Change events are dispatched fire-and-forget, and async poll ticks may overlap. Ticks and events run one at a time here.
- A second finalisation of an already-terminal order is not excluded. The source does not guard against it.
- `processAndUploadPDF` is an opaque `Processor` that returns a URL or fails. Its temp files, the `qpdf` command, the CDN upload stream and its time-based keys are not modelled.
- Timers are not modelled. Ticks are supplied from outside with the current time, so the one-minute interval appears only in the schedule lemmas. A scheduled reconnect records its delay, but when it fires is up to the caller of `FireRestart`.
- JSON values are primitives: undefined, null, booleans, integers and strings. Fractional numbers are not modelled, nor are objects or arrays as property values and their template-literal text.
- Errors always carry a string message. A thrown non-Error value is not modelled, and neither is a token or cookie response body that is not a string.
- `findByIdAndUpdate` can return nothing (order not found) or throw (write failure). Both are one case here, because neither leads to a refund.
- The `order && order._id` guard in the error path is not modelled. An inserted document always has an id.
- Logging and the file sizes in MB are not modelled. The return value of `handleNewOrder` is not modelled either, because it is only logged.
- `server_old.js` (an older variant of the same pipeline) is not part of this model.
- Listener.Listener.OnStreamError: an error is modelled only on the open stream. The source's handler would also clear the global handle if a stream that was already closed emitted an error.
