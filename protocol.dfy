/** The two programs run against one transport: the dispatcher sends a batch,
    the worker answers each request in turn, and the dispatcher collects the
    answers. These runs fix one interleaving and one transport behaviour and
    show what the protocol then delivers. */
module Protocol {
  import opened Common
  import opened Queues
  import opened Dispatcher
  import opened Worker

  /** The answers to the first `k` requests of a batch, in index order. */
  function Answers(token: string, callback: string, n: int, k: nat): (r: seq<Payload>)
    ensures |r| == k
  {
    seq(k, i requires 0 <= i < k => ResponsePayload(RequestFor(token, callback, n, i)))
  }

  /** A callback queue named after a batch token (a GUID in "N" format, 32
      characters) is never the processing queue. */
  lemma CallbackIsNotProcessing(token: string)
    requires |token| == 32
    ensures QueueUrl(token) != ProcessingQueue
  {
    QueueUrlInjective(token, ProcessingName);
  }

  /** The worker answers requests `0 .. n-1` one poll each; every send is
      accepted. Each poll moves the head request out of the processing queue
      and its answer onto the end of the callback queue. */
  method AnswerAll(svc: QueueService, callback: string, token: string, n: nat, ghost requests: seq<Entry>)
    requires svc.Valid() && callback != ProcessingQueue
    requires ProcessingQueue in svc.queues && svc.queues[ProcessingQueue] == requests
    requires callback in svc.queues && svc.queues[callback] == []
    requires |requests| == n && forall i :: 0 <= i < n ==> requests[i].payload == RequestPayload(token, callback, n, i)
    modifies svc
    ensures svc.Valid()
    ensures ProcessingQueue in svc.queues && svc.queues[ProcessingQueue] == []
    ensures callback in svc.queues && Payloads(svc.queues[callback]) == Answers(token, callback, n, n)
  {
    var k := 0;
    while k < n
      invariant 0 <= k <= n && |requests| == n
      invariant svc.Valid()
      invariant ProcessingQueue in svc.queues && svc.queues[ProcessingQueue] == requests[k..]
      invariant callback in svc.queues && Payloads(svc.queues[callback]) == Answers(token, callback, n, k)
    {
      ghost var qs := svc.queues;
      ghost var next := svc.nextReceipt;
      ghost var request := requests[k].payload.body;
      assert request == RequestFor(token, callback, n, k);
      assert requests[k..][0] == requests[k] && requests[k..][1..] == requests[k + 1..];
      AcknowledgedMoves(qs, next, Ok);
      var outcome := Step(svc, 1, Ok);
      ghost var e := Entry(ResponsePayload(request), next);
      assert svc.queues == qs[callback := qs[callback] + [e]][ProcessingQueue := requests[k + 1..]];
      PayloadsAppend(qs[callback], e);
      assert Answers(token, callback, n, k + 1) == Answers(token, callback, n, k) + [e.payload];
      k := k + 1;
    }
  }

  /** One receive that is offered `n` messages on a callback queue holding
      exactly `n` collects them all: the dispatcher counts `n` and finishes. */
  method CollectInOnePoll(svc: QueueService, callback: string, n: nat) returns (outcome: BatchOutcome, ghost collected: seq<Entry>)
    requires svc.Valid() && callback in svc.queues && |svc.queues[callback]| == n
    modifies svc
    ensures outcome == Finished(n)
    ensures collected == old(svc.queues)[callback]
    ensures callback !in svc.queues
  {
    collected := svc.queues[callback];
    ghost var batches;
    outcome, batches := FinishBatch(svc, callback, n, _ => n, 1);
    if n > 0 {
      assert batches != [] ==> Flatten(batches) == Flatten(batches[..0]) + batches[0];
      assert |batches[0]| == TakeCount(n, n, n) == n;
      assert batches == [batches[0]];
      assert Flatten(batches) == batches[0];
    }
  }

  /** The entries whose payloads are requests `0 .. n-1` hold request `i` at position `i`. */
  lemma RequestsSent(added: seq<Entry>, ps: seq<Payload>, token: string, callback: string, n: nat)
    requires Payloads(added) == ps
    requires |ps| == n && forall i :: 0 <= i < n ==> ps[i] == RequestPayload(token, callback, n, i)
    ensures |added| == n && forall i :: 0 <= i < n ==> added[i].payload == RequestPayload(token, callback, n, i)
  {
    assert forall i :: 0 <= i < n ==> added[i].payload == Payloads(added)[i];
  }

  /** One run of the whole protocol with a well-behaved transport: the
      dispatcher creates the callback queue and sends `n` requests, the worker
      answers them one by one, and a single receive on the callback queue
      hands back every answer. The dispatcher then counts exactly `n`,
      deletes the callback queue and finishes; what it collected is the
      answer to each request, in index order. */
  method CompleteBatch(token: string, n: nat) returns (outcome: BatchOutcome, ghost collected: seq<Entry>)
    requires |token| == 32
    ensures outcome == Finished(n)
    ensures Payloads(collected) == Answers(token, QueueUrl(token), n, n)
    ensures forall i :: 0 <= i < n ==>
      collected[i].payload.body.ThisMessage == i && collected[i].payload.body.TotalMessages == n &&
      collected[i].payload.body.TypeOfMessage == ProcessResponse
  {
    var svc := new QueueService();
    var processing := svc.CreateQueue(ProcessingName);
    var callback := svc.CreateQueue(token);
    CallbackIsNotProcessing(token);
    var accept: nat -> Status := _ => Ok;
    var raised;
    ghost var added;
    raised, added := SendRequests(svc, token, callback, n, accept);
    AcceptedAllOk(token, callback, n, true, accept, n);
    RequestsSent(added, Accepted(token, callback, n, true, accept, n), token, callback, n);
    AnswerAll(svc, callback, token, n, added);
    outcome, collected := CollectInOnePoll(svc, callback, n);
    AnswersInOrder(token, callback, n, collected);
  }

  /** Answer `i` of a batch of `n` is a response with index `i` and total `n`. */
  lemma AnswersInOrder(token: string, callback: string, n: nat, collected: seq<Entry>)
    requires Payloads(collected) == Answers(token, callback, n, n)
    ensures forall i :: 0 <= i < n ==>
      collected[i].payload.body.ThisMessage == i && collected[i].payload.body.TotalMessages == n &&
      collected[i].payload.body.TypeOfMessage == ProcessResponse
  {
    forall i | 0 <= i < n
      ensures collected[i].payload.body.ThisMessage == i && collected[i].payload.body.TotalMessages == n &&
        collected[i].payload.body.TypeOfMessage == ProcessResponse
    {
      assert collected[i].payload == Payloads(collected)[i];
    }
  }

  /** The dispatcher counts messages, not distinct indices: two copies of the
      answer to request 0 complete a batch of two, although request 1 was
      never answered. */
  method DuplicateAnswersCount(token: string) returns (outcome: BatchOutcome, ghost collected: seq<Entry>)
    ensures outcome == Finished(2)
    ensures |collected| == 2 && forall e :: e in collected ==> e.payload.body.ThisMessage == 0
  {
    var svc := new QueueService();
    var callback := svc.CreateQueue(token);
    var answer := ResponsePayload(RequestFor(token, callback, 2, 0));
    var first := svc.Send(callback, answer, Ok);
    var second := svc.Send(callback, answer, Ok);
    outcome, collected := CollectInOnePoll(svc, callback, 2);
  }

  /** A batch of no requests still creates its callback queue and deletes it again. */
  method EmptyBatch(token: string) returns (outcome: BatchOutcome, ghost log: seq<Event>)
    ensures outcome == Finished(0)
    ensures log == [QueueCreated(QueueUrl(token)), QueueDeleted(QueueUrl(token), Ok)]
  {
    var svc := new QueueService();
    ghost var added, batches;
    outcome, added, batches := RunBatch(svc, token, 0, _ => Ok, _ => 0, 0);
    log := svc.log;
  }
}
