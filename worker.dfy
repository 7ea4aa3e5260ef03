/** The worker: it takes at most one request from the processing queue per
    poll, rewrites it into a response, sends the response to the request's own
    callback queue and deletes the request only once that send came back OK. */
module Worker {
  import opened Common
  import opened Queues

  /** The object every response claims to have produced. */
  const ConvertedPath := "s3://us-east-1/path/to/someting.scz"

  /** The worker asks for one message per receive. */
  const ReceiveLimit := 1

  /** What a response to `request` is: the worker's fixed answer, with the
      three correlation fields carried over from the request. */
  predicate IsResponseTo(request: Message, response: Message) {
    && response.TypeOfMessage == ProcessResponse
    && response.S3Path == ConvertedPath
    && response.Result == Some("OK")
    && response.CallbackQueue == request.CallbackQueue
    && response.TotalMessages == request.TotalMessages
    && response.ThisMessage == request.ThisMessage
  }

  /** The request rewritten in place into the response. */
  function ResponseTo(request: Message): (response: Message)
    ensures IsResponseTo(request, response)
  {
    request.(Result := Some("OK"), TypeOfMessage := ProcessResponse, S3Path := ConvertedPath)
  }

  /** The six fields pin the response down: it is the only message that answers `request`. */
  lemma ResponseCharacterised(request: Message, response: Message)
    ensures IsResponseTo(request, response) <==> response == ResponseTo(request)
  {
  }

  /** No kind check is made: a message of either kind, and whatever its path
      and result, is answered in the same way. */
  lemma ResponseIgnoresKind(request: Message, kind: MessageType, path: string, result: Option<string>)
    ensures ResponseTo(request.(TypeOfMessage := kind, S3Path := path, Result := result)) == ResponseTo(request)
  {
  }

  /** Answering a response again changes nothing. */
  lemma ResponseIdempotent(request: Message)
    ensures ResponseTo(ResponseTo(request)) == ResponseTo(request)
  {
  }

  /** The text of a response shows nothing but its callback: two responses
      render alike exactly when their callbacks do. */
  lemma RenderResponse(a: Message, b: Message)
    ensures Render(ResponseTo(a)) == Render(ResponseTo(b)) <==> OrEmpty(a.CallbackQueue) == OrEmpty(b.CallbackQueue)
  {
    assert ',' !in ConvertedPath && ',' !in "OK";
    ReadRenderedRender(ResponseTo(a));
    ReadRenderedRender(ResponseTo(b));
  }

  /** The response goes out without group or deduplication id. */
  function ResponsePayload(request: Message): (p: Payload)
    ensures p.groupId == None && p.dedupId == None && IsResponseTo(request, p.body)
  {
    Payload(ResponseTo(request), None, None)
  }

  // ---------------------------------------------------------------------
  // Handling one received message: what it does to the queues, as functions
  // of the state before.

  /** How one iteration of the worker's loop ended: nothing was received; the
      request was answered and deleted; it was answered but the send was not
      OK, so it stays; a transport exception ended the program; or a request
      without callback queue made it fail with a null dereference, which the
      program does not catch. */
  datatype StepOutcome = NoMessage | Acknowledged | Retained | Stopped | Crashed

  function SendOutcome(status: Status): StepOutcome {
    match status
    case Ok => Acknowledged
    case NotOk => Retained
    case Raised => Stopped
  }

  /** The status of the response send, or `None` when there is no callback to send to. */
  function ResponseStatus(qs: map<string, seq<Entry>>, request: Message, verdict: Status): Option<Status> {
    match request.CallbackQueue
    case None => None
    case Some(cb) => Some(if cb in qs then verdict else Raised)
  }

  function HandleOutcome(qs: map<string, seq<Entry>>, entry: Entry, verdict: Status): StepOutcome {
    match ResponseStatus(qs, entry.payload.body, verdict)
    case None => Crashed
    case Some(status) => SendOutcome(status)
  }

  /** The queues after a response `e` joined the callback queue and the request
      with receipt handle `h` left the processing queue. */
  function Acked(qs: map<string, seq<Entry>>, cb: string, e: Entry, h: nat): map<string, seq<Entry>>
    requires cb in qs && ProcessingQueue in qs
  {
    var sent := qs[cb := qs[cb] + [e]];
    sent[ProcessingQueue := RemoveReceipt(sent[ProcessingQueue], h)]
  }

  /** The queues after the worker handled `entry`; `next` is the receipt
      handle the transport gives the response. */
  function AfterHandle(qs: map<string, seq<Entry>>, next: nat, entry: Entry, verdict: Status): map<string, seq<Entry>>
    requires ProcessingQueue in qs
  {
    var request := entry.payload.body;
    if ResponseStatus(qs, request, verdict) == Some(Ok) then
      Acked(qs, request.CallbackQueue.value, Entry(ResponsePayload(request), next), entry.receipt)
    else qs
  }

  /** The transport calls made while handling `entry`. */
  function HandleEvents(qs: map<string, seq<Entry>>, entry: Entry, verdict: Status): seq<Event> {
    var request := entry.payload.body;
    match ResponseStatus(qs, request, verdict)
    case None => []
    case Some(status) =>
      [Sent(request.CallbackQueue.value, ResponsePayload(request), status)] +
      (if status == Ok then [Deleted(ProcessingQueue, entry.receipt)] else [])
  }

  /** A request is deleted only after its response was sent, only when that
      send came back OK, and by its own receipt handle. */
  lemma SendThenDelete(qs: map<string, seq<Entry>>, entry: Entry, verdict: Status)
    ensures var ev := HandleEvents(qs, entry, verdict);
      && (HandleOutcome(qs, entry, verdict) == Acknowledged <==> exists i :: 0 <= i < |ev| && ev[i].Deleted?)
      && forall i :: 0 <= i < |ev| && ev[i].Deleted? ==>
           i == 1 && ev[i] == Deleted(ProcessingQueue, entry.receipt) && ev[0].Sent? && ev[0].status == Ok
  {
    var ev := HandleEvents(qs, entry, verdict);
    if HandleOutcome(qs, entry, verdict) == Acknowledged {
      assert ev[1].Deleted?;
    }
  }

  /** Every message with a callback gets exactly one response, sent to its own
      callback queue, whatever kind of message it was. */
  lemma OneResponsePerMessage(qs: map<string, seq<Entry>>, entry: Entry, verdict: Status)
    requires entry.payload.body.CallbackQueue.Some?
    ensures var ev := HandleEvents(qs, entry, verdict);
      && |ev| >= 1 && ev[0].Sent?
      && ev[0].url == entry.payload.body.CallbackQueue.value
      && ev[0].payload.body == ResponseTo(entry.payload.body)
      && forall i :: 1 <= i < |ev| ==> !ev[i].Sent?
  {
  }

  /** Unless the response send came back OK, the request stays where it was
      and nothing in any queue changes; once it did, no message with the
      request's receipt handle is left in the processing queue. */
  lemma DeleteOnlyIfOk(qs: map<string, seq<Entry>>, next: nat, entry: Entry, verdict: Status)
    requires ProcessingQueue in qs
    ensures HandleOutcome(qs, entry, verdict) != Acknowledged ==> AfterHandle(qs, next, entry, verdict) == qs
    ensures HandleOutcome(qs, entry, verdict) == Acknowledged ==>
      var after := AfterHandle(qs, next, entry, verdict);
      ProcessingQueue in after && forall e :: e in after[ProcessingQueue] ==> e.receipt != entry.receipt
  {
  }

  /** An acknowledged request leaves the head of the processing queue and its
      response joins the end of the callback queue; no other queue changes. */
  lemma {:induction false} AcknowledgedMoves(qs: map<string, seq<Entry>>, next: nat, verdict: Status)
    requires ProcessingQueue in qs && qs[ProcessingQueue] != [] && UniqueReceipts(qs[ProcessingQueue])
    requires var cb := qs[ProcessingQueue][0].payload.body.CallbackQueue;
      cb.Some? && cb.value != ProcessingQueue && cb.value in qs
    requires verdict == Ok
    ensures var q := qs[ProcessingQueue];
      var request := q[0].payload.body;
      var cb := request.CallbackQueue.value;
      && HandleOutcome(qs, q[0], verdict) == Acknowledged
      && AfterHandle(qs, next, q[0], verdict) ==
           qs[cb := qs[cb] + [Entry(ResponsePayload(request), next)]][ProcessingQueue := q[1..]]
  {
    RemoveUniqueHead(qs[ProcessingQueue]);
  }

  // ---------------------------------------------------------------------
  // The program.

  /** The body of the `foreach`: read the request, rewrite it field by field,
      send it to its callback queue and delete the request if that send was OK. */
  method Handle(svc: QueueService, entry: Entry, verdict: Status) returns (outcome: StepOutcome)
    requires svc.Valid() && ProcessingQueue in svc.queues
    modifies svc
    ensures svc.Valid()
    ensures outcome == HandleOutcome(old(svc.queues), entry, verdict)
    ensures svc.queues == AfterHandle(old(svc.queues), old(svc.nextReceipt), entry, verdict)
    ensures svc.nextReceipt == old(svc.nextReceipt) + (if outcome == Acknowledged then 1 else 0)
    ensures svc.log == old(svc.log) + HandleEvents(old(svc.queues), entry, verdict)
  {
    var recMsg := entry.payload.body;
    recMsg := recMsg.(Result := Some("OK"));
    recMsg := recMsg.(TypeOfMessage := ProcessResponse);
    recMsg := recMsg.(S3Path := ConvertedPath);
    if recMsg.CallbackQueue == None {
      outcome := Crashed;
      return;
    }
    var resp := svc.Send(recMsg.CallbackQueue.value, Payload(recMsg, None, None), verdict);
    if resp == Ok {
      svc.Delete(ProcessingQueue, entry.receipt);
    }
    outcome := SendOutcome(resp);
  }

  /** One iteration of the worker's polling loop: receive at most one message
      from the processing queue and handle what was received. */
  method Step(svc: QueueService, available: nat, verdict: Status) returns (outcome: StepOutcome)
    requires svc.Valid()
    modifies svc
    ensures svc.Valid()
    ensures ProcessingQueue !in old(svc.queues) ==>
      outcome == Stopped && svc.queues == old(svc.queues) &&
      svc.log == old(svc.log) + [Received(ProcessingQueue, [])]
    ensures ProcessingQueue in old(svc.queues) ==>
      var q := old(svc.queues)[ProcessingQueue];
      var k := TakeCount(ReceiveLimit, available, |q|);
      && k <= 1
      && (k == 0 ==>
            outcome == NoMessage && svc.queues == old(svc.queues) &&
            svc.log == old(svc.log) + [Received(ProcessingQueue, [])])
      && (k == 1 ==>
            outcome == HandleOutcome(old(svc.queues), q[0], verdict) &&
            svc.queues == AfterHandle(old(svc.queues), old(svc.nextReceipt), q[0], verdict) &&
            svc.log == old(svc.log) + [Received(ProcessingQueue, [q[0]])] + HandleEvents(old(svc.queues), q[0], verdict))
  {
    var status, messages := svc.Receive(ProcessingQueue, ReceiveLimit, available);
    if status == Raised {
      outcome := Stopped;
      return;
    }
    ghost var qs0 := svc.queues;
    ghost var next0 := svc.nextReceipt;
    ghost var log0 := svc.log;
    assert |messages| == 1 ==> messages == [qs0[ProcessingQueue][0]];
    outcome := NoMessage;
    var i := 0;
    while i < |messages|
      invariant 0 <= i <= |messages| <= 1
      invariant svc.Valid()
      invariant i == 0 ==> outcome == NoMessage && svc.queues == qs0 && svc.log == log0 && svc.nextReceipt == next0
      invariant i == 1 ==>
        && outcome == HandleOutcome(qs0, messages[0], verdict)
        && svc.queues == AfterHandle(qs0, next0, messages[0], verdict)
        && svc.log == log0 + HandleEvents(qs0, messages[0], verdict)
    {
      outcome := Handle(svc, messages[i], verdict);
      if outcome == Stopped || outcome == Crashed {
        return;
      }
      i := i + 1;
    }
  }
}
