# SQS request/response correlation, modelled in Dafny

Two console programs talk through Amazon SQS. The message record they share
lives in `ClassLibrary1`.

- The **dispatcher** (`SQSSample1`) first creates a callback queue named after a fresh batch token. It then sends N
  conversion requests to a shared FIFO processing queue. Request `i` carries `ThisMessage = i`,
  `TotalMessages = N`, the callback queue's URL and `"{token}-{i}"` as its group and deduplication id. The
  dispatcher then polls the callback queue. It deletes each message it receives by that message's receipt
  handle and counts it, until it has counted N. Last, it deletes the callback queue.
- The **worker** (`Converter`) polls the processing queue for one message at a time. It rewrites each request
  in place into a response: result `"OK"`, kind `ProcessResponse`, a fixed object path. It sends the response
  to the request's callback queue. It deletes the request from the processing queue only if that send came
  back OK.

The model keeps the protocol and replaces the SQS service by a deterministic in-memory transport.

- `common.dfy` (module `Common`): the `Message` record as a datatype, and its `ToString` rendering with a
  reader that recovers the four rendered fields.
- `text.dfy` (module `Text`): how an index is printed into the ids and paths (`$"{i}"`), and the parse that
  inverts it.
- `queues.dfy` (module `Queues`): the transport, as class `QueueService`.
  - It holds a map from queue URL to the messages the queue holds, each message with its receipt handle.
  - It logs every call in a ghost event log.
  - Two of the service's decisions are parameters of the call: whether a send is accepted (`Ok`, `NotOk`,
    or `Raised` for an `AmazonSQSException`), and how many messages a receive hands back.
  - A receive or a queue delete raises only when its queue is missing. Creating a queue never raises, and a
    message delete is made only on a queue that exists. The real service can fail in other ways too; see
    "Left out".
- `dispatcher.dfy` (module `Dispatcher`): the dispatcher's `Main`. The send loop (`SendRequests`) and the
  receive/delete/count loop (`AwaitResponses`) are methods with loops over the transport object, proved
  against specification functions: `SendLog`, `Accepted` and `Attempted` for the sends, `Flatten` and
  `PollLog` for the polls. The teardown (`FinishBatch`) runs the receive loop and then deletes the callback
  queue.
- `worker.dfy` (module `Worker`): one iteration of the worker's polling loop.
  - The response is rewritten field by field in the method.
  - It is specified by `ResponseTo` and `IsResponseTo`.
  - What the queues and the call log become is given by `AfterHandle` and `HandleEvents`.
- `protocol.dfy` (module `Protocol`): both programs against one transport, in one fixed interleaving. With a
  transport that accepts everything, a batch completes with exactly one answer per request, in index order.
  The dispatcher's counting also accepts duplicates, and an empty batch still creates and deletes its queue.

Environment inputs are parameters:

- the batch token (`Guid.NewGuid`);
- per-send verdicts (`verdict: nat -> Status`);
- per-poll offer sizes (`available: nat -> nat`);
- a bound `maxPolls` on the dispatcher's receive loop, which the source does not bound.

Some behaviours of the code are easy to miss, and the model keeps them:

- With N = 0 the dispatcher still creates the callback queue and deletes it again, without receiving
  (`Protocol.EmptyBatch`).
- The dispatcher counts received messages, not distinct sequence numbers. Two copies of one answer complete
  a batch of two (`Protocol.DuplicateAnswersCount`).
- There is no timeout and no poison-message handling. The receive loop ends only when enough messages were
  counted, or when an exception ends the program.
- The worker makes no kind check: any message it receives is answered (`Worker.ResponseIgnoresKind`).
- A request without callback queue makes the worker dereference null. That exception is not an
  `AmazonSQSException`, so the program's `catch` does not handle it (`Worker.StepOutcome.Crashed`).

## Model

| member | source | states |
|---|---|---|
| Common.ReadRenderedRender | ClassLibrary1/Common.cs:20-23 | `Render` (`ToString`) lays out type, path, result and callback, in that order, behind their labels; when path and result hold no comma, a reader recovers all four fields from the text |
| Common.TypeNameReadBack | ClassLibrary1/Common.cs:5-9 | each of the two message kinds renders as a comma-free name that reads back as that kind |
| Common.RenderIgnoresCounters | ClassLibrary1/Common.cs:20-23 | two messages differing only in `TotalMessages` and `ThisMessage` render identically |
| Common.RenderNullAsEmpty | ClassLibrary1/Common.cs:22 | a null result or callback renders exactly like the empty string, so every label stays |
| Text.NatToString | SQSSample1/Program.cs:70 | an index prints as a non-empty string of decimal digits with no leading zero, a single digit exactly when it is below ten |
| Text.ValueOfNatToString | SQSSample1/Program.cs:70 | reading the printed digits back gives the index that was printed |
| Text.NatToStringInjective | SQSSample1/Program.cs:80-81 | two indices print alike exactly when they are equal |
| Queues.QueueUrlInjective | SQSSample1/Program.cs:43-45 | queues created under different names get different URLs |
| Queues.TakeCount | SQSSample1/Program.cs:92 | a receive hands back no more messages than asked for, offered, or held, and at least one when all three are positive |
| Queues.RemoveReceipt | SQSSample1/Program.cs:139-141 | deleting by a receipt handle keeps exactly the messages with another handle |
| Queues.RemoveUniqueHead | SQSSample1/Program.cs:139-141 | with unique handles, deleting the first message by its own handle removes it and nothing else |
| Queues.RemoveKeepsUnique | SQSSample1/Program.cs:139-141 | a delete keeps the handles of a queue unique |
| Queues.QueueService.CreateQueue | SQSSample1/Program.cs:43-45 | creating a queue gives back its URL, adds an empty queue unless one exists, and logs the call |
| Queues.QueueService.Send | SQSSample1/Program.cs:76-83 | a send to a missing queue raises; otherwise the verdict decides, and only an accepted message joins the end of the queue, with a fresh handle |
| Queues.QueueService.Receive | Converter/Program.cs:46-56 | a receive on a missing queue raises; otherwise it hands back the first messages of the queue, as many as `TakeCount` allows, and leaves the queue unchanged |
| Queues.QueueService.Delete | Converter/Program.cs:116-122 | the queue loses exactly the messages with that handle |
| Queues.QueueService.DeleteQueue | SQSSample1/Program.cs:149 | an existing queue is removed with its messages; a missing one raises; either way the attempt is logged with its status |
| Dispatcher.DedupIdInjective | SQSSample1/Program.cs:80-81 | the group and deduplication ids `"{token}-{i}"` of two requests differ exactly when their index or token differs, whatever the tokens' lengths: the digits after the last dash fix the split |
| Dispatcher.DedupIdReadBack | SQSSample1/Program.cs:80-81 | `DedupId`: the id of request `i` splits at its last dash into the batch token and the digits of `i` |
| Dispatcher.S3PathReadBack | SQSSample1/Program.cs:70 | `S3PathFor`: the path of request `i` lies in the fixed folder, ends in `.dwfx`, and gives back the token and `i` |
| Dispatcher.RequestCarries | SQSSample1/Program.cs:67-82 | `RequestFor` and `RequestPayload`: request `i` is a `ProcessRequest` with null result, the callback URL, `TotalMessages = N` and `ThisMessage = i`; its path, group id and equal dedup id all give back the token and `i` |
| Dispatcher.S3PathInjective | SQSSample1/Program.cs:70 | request paths embed both the token and the index: two paths agree only when both do |
| Dispatcher.Attempted | SQSSample1/Program.cs:64-84 | the sends that come back are those before the first one that raises an exception |
| Dispatcher.SendLog | SQSSample1/Program.cs:64-84 | the `i`-th transport call of the send loop sends request `i` to the processing queue |
| Dispatcher.AcceptedAllOk | SQSSample1/Program.cs:64-84 | when every send is accepted, the processing queue receives exactly the requests 0 .. N-1, in index order |
| Dispatcher.SendRequest | SQSSample1/Program.cs:67-83 | request `i` has kind `ProcessRequest`, `ThisMessage = i`, `TotalMessages = N`, the callback URL, and `"{token}-{i}"` as both group and dedup id |
| Dispatcher.SendRequests | SQSSample1/Program.cs:64-84 | the loop sends requests in index order until the first exception; the log holds exactly those sends; the processing queue gains exactly the accepted ones; the send status is otherwise ignored |
| Dispatcher.DeleteAndCount | SQSSample1/Program.cs:101-144 | every message of a receive is deleted from the callback queue by its own handle, in order, and the count grows by one per deleted message |
| Dispatcher.Poll | SQSSample1/Program.cs:89-145 | one pass receives up to N callback messages, then deletes and counts each of them; a missing callback queue raises |
| Dispatcher.DeletesCounted | SQSSample1/Program.cs:139-142 | `totalReceived` equals the number of deletes the receive loop made |
| Dispatcher.AwaitResponses | SQSSample1/Program.cs:86-146 | the loop ends as complete exactly when the count reached N; what it counted is the first messages the callback queue held, in order; the queue loses exactly those; every receive is followed by the deletes of its messages |
| Dispatcher.FinishBatch | SQSSample1/Program.cs:86-161 | the callback queue is deleted after the receive loop ends, and only if it ended normally; the run is aborted exactly when the callback queue is missing and a receive or the queue's delete was reached, since either raises; such a run adds exactly that one failed receive or failed queue delete to the log |
| Dispatcher.StartBatch | SQSSample1/Program.cs:40-84 | the callback queue is created under the token before any request is sent; the processing queue gains exactly the accepted requests, and the log holds the creation and then the sends |
| Dispatcher.RunBatch | SQSSample1/Program.cs:40-161 | the run is aborted exactly when a send raised; the log starts with the queue creation and the sends, then the receives with their deletes, then the queue's delete; the counted messages are the first the callback queue held, in order; a finished run counted at least N and removed the callback queue; a run out of polls leaves the rest of it; an empty batch finishes at once |
| Worker.ResponsePayload | Converter/Program.cs:106-110 | the response is sent with no group and no deduplication id, and its body answers the request |
| Worker.ResponseTo | Converter/Program.cs:102-104 | the response has result `"OK"`, kind `ProcessResponse` and the fixed path, and keeps the request's callback, total and index |
| Worker.ResponseCharacterised | Converter/Program.cs:102-104 | those six field values determine the response exactly |
| Worker.ResponseIgnoresKind | Converter/Program.cs:60-111 | no kind check: a request's kind, path and result do not influence its response |
| Worker.ResponseIdempotent | Converter/Program.cs:102-104 | rewriting a response again changes nothing |
| Worker.RenderResponse | Converter/Program.cs:102-104 | two responses render alike exactly when their callbacks do |
| Worker.SendThenDelete | Converter/Program.cs:111-124 | a request is deleted only when the response send came back OK; the delete comes right after that send and uses the request's own handle |
| Worker.OneResponsePerMessage | Converter/Program.cs:60-111 | a message with a callback gets exactly one send, to its own callback queue, carrying its response |
| Worker.DeleteOnlyIfOk | Converter/Program.cs:111-124 | unless the send came back OK, the processing queue keeps the request (and, since a failed send stores nothing in this model, no queue changes); after an OK, no message with its handle is left |
| Worker.AcknowledgedMoves | Converter/Program.cs:111-122 | an acknowledged request leaves the head of the processing queue, and its response joins the end of the callback queue |
| Worker.Handle | Converter/Program.cs:62-124 | the request is rewritten field by field, sent to its callback queue and deleted if the send was OK; a null callback fails before any send |
| Worker.Step | Converter/Program.cs:46-127 | one poll asks for at most one message and handles what it received; a missing processing queue raises |
| Protocol.CallbackIsNotProcessing | SQSSample1/Program.cs:40-45 | a callback queue named after a 32-character token is never the processing queue |
| Protocol.AnswerAll | Converter/Program.cs:54-131 | n worker polls with accepted sends empty the processing queue and leave the answers to requests 0 .. n-1, in order, in the callback queue |
| Protocol.CompleteBatch | SQSSample1/Program.cs:64-149 | with a transport that accepts everything, the dispatcher counts exactly N answers and finishes; answer `i` has index `i`, total N and kind `ProcessResponse` |
| Protocol.DuplicateAnswersCount | SQSSample1/Program.cs:87-142 | two copies of the answer to request 0 complete a batch of two |
| Protocol.EmptyBatch | SQSSample1/Program.cs:60-149 | a batch of no requests creates the callback queue, then deletes it, and finishes with a count of zero |

## Left out

- JSON serialisation and deserialisation: a message body is the `Message` value itself. A body that fails to
  deserialise is therefore not modelled.
- Console output: the attribute, receipt-handle, MD5 and body printing, and `ListQueues` with its printing.
  None of it affects the protocol.
- `Thread.Sleep`, the random delay, long-poll waits and the attribute-name options of a receive: timing only.
- `Guid.NewGuid`: the token is a parameter. `Protocol.CompleteBatch` asks for the 32 characters of its "N"
  format.
- Server-side SQS behaviour: visibility timeouts and redelivery, FIFO group ordering, deduplication intervals,
  and the service's 1..10 range for `MaxNumberOfMessages`. A receive hands back the first messages of a
  queue and leaves them in place until they are deleted. Group and dedup ids travel with a request, but the
  transport does not act on them.
- Concurrency of the two programs, or of several workers: `Protocol` fixes one interleaving (all sends, then
  all worker polls, then one dispatcher receive).
- Dispatcher.AwaitResponses: does not model an unbounded receive loop; `maxPolls` bounds the receives, and
  `OutOfPolls` (`Polling` in `Dispatcher.FinishBatch`) stands for a run that would still be polling.
- Worker.Step: models one iteration of the worker's `while (true)` loop, not the endless loop.
- `Uri` handling: a callback is its URL text. `new Uri(...)` and `Uri.ToString()` are taken not to change
  it, so their canonicalisation is not modelled.
- 32-bit `int`: the counters are unbounded integers. The source's N is the constant 5, so overflow cannot
  arise there.
- The statuses of the dispatcher's sends and deletes and of both programs' delete calls are ignored by the
  source. In the model, a delete always succeeds, since its queue exists at every call site.
- Queues.QueueService.Send: a send that comes back `NotOk` or `Raised` is taken never to have stored the
  message. The real service may have stored it before the status or the exception came back. Then the
  worker keeps the request, answers it again on a later poll, and the dispatcher counts both answers.
  The model therefore cannot produce a duplicate answer from the worker; `Protocol.DuplicateAnswersCount`
  builds that situation directly.
- Queues.QueueService.Receive: raises only on a missing queue, as does `DeleteQueue`; `CreateQueue` never
  raises. The service's other reasons to throw from `CreateQueue`, `ReceiveMessage` and
  `DeleteQueue` (throttling, permissions, the network) are not modelled.
- Dispatcher.RunBatch: "aborted exactly when a send raised" rests on that. The callback queue exists
  once created, so only a send can end the run early; a receive or teardown failure of the real service
  would abort it too.
- Worker.Step: for the same reason, its receive raises only when the processing queue is missing.
- The bodies of the `catch` blocks only print. They are modelled as ending the run (`Aborted`, `Stopped`).
