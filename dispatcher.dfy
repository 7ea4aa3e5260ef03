/** The producer: it creates a callback queue named after a batch token, sends
    one request per index to the processing queue, polls the callback queue,
    deleting and counting every message it receives until it has counted as
    many as it sent, and finally deletes the callback queue. */
module Dispatcher {
  import opened Common
  import opened Text
  import opened Queues

  const S3Folder := "s3://us-east-1/assembleassets/path/to/"

  /** The object request `i` of the batch asks to have converted: a path in
      the batch's own folder, named after the index. */
  function S3PathFor(token: string, i: nat): string {
    S3Folder + token + "/dwfx_" + NatToString(i) + ".dwfx"
  }

  /** Request `i`'s message group id, which is also its deduplication id: the
      token, a dash, and the digits of the index. */
  function DedupId(token: string, i: nat): string {
    token + "-" + NatToString(i)
  }

  /** Request `i` of a batch of `n` whose answers go to `callback`. */
  function RequestFor(token: string, callback: string, n: int, i: nat): Message {
    Message(ProcessRequest, S3PathFor(token, i), None, Some(callback), n, i)
  }

  /** The request together with its group and deduplication ids, which are equal. */
  function RequestPayload(token: string, callback: string, n: int, i: nat): Payload {
    Payload(RequestFor(token, callback, n, i), Some(DedupId(token, i)), Some(DedupId(token, i)))
  }

  /** Digits hold no dash, underscore or other separator. */
  lemma DigitsExclude(s: string, c: char)
    requires AllDigits(s) && !IsDigit(c)
    ensures c !in s
  {
  }

  /** The deduplication ids of two requests differ exactly when their indices
      or their tokens do: the digits after the last dash give the index back,
      and what precedes that dash the token. */
  lemma DedupIdInjective(t1: string, i: nat, t2: string, j: nat)
    ensures DedupId(t1, i) == DedupId(t2, j) <==> t1 == t2 && i == j
  {
    if DedupId(t1, i) == DedupId(t2, j) {
      SplitAtLast(t1, '-', NatToString(i));
      SplitAtLast(t2, '-', NatToString(j));
      NatToStringInjective(i, j);
    }
  }

  /** A string made of a head, a separator and digits splits back into its
      parts at the separator's last occurrence. */
  lemma SplitAtLast(head: string, c: char, digits: string)
    requires AllDigits(digits) && !IsDigit(c)
    ensures var s := head + [c] + digits;
      LastIndexOf(s, c) == |head| && s[..|head|] == head && s[|head| + 1..] == digits
  {
    DigitsExclude(digits, c);
    LastIndexOfSeparator(head, c, digits);
    var s := head + [c] + digits;
    assert s[..|head|] == head;
    assert s[|head| + 1..] == digits;
  }

  /** A request path is the fixed folder, then the token and the index
      around the last underscore, then the fixed extension. */
  lemma S3PathSplit(token: string, i: nat)
    ensures var p := S3PathFor(token, i);
      var middle := token + "/dwfx" + ['_'] + NatToString(i);
      |p| == |S3Folder| + |middle| + 5 && p[|S3Folder|..|p| - 5] == middle
  {
    var middle := token + "/dwfx" + ['_'] + NatToString(i);
    assert S3PathFor(token, i) == S3Folder + middle + ".dwfx";
  }

  /** The object path names both the batch and the index: two requests ask
      for the same object only if their tokens and indices agree. */
  lemma S3PathInjective(t1: string, i: nat, t2: string, j: nat)
    ensures S3PathFor(t1, i) == S3PathFor(t2, j) <==> t1 == t2 && i == j
  {
    if S3PathFor(t1, i) == S3PathFor(t2, j) {
      S3PathSplit(t1, i);
      S3PathSplit(t2, j);
      var h1, h2 := t1 + "/dwfx", t2 + "/dwfx";
      SplitAtLast(h1, '_', NatToString(i));
      SplitAtLast(h2, '_', NatToString(j));
      assert h1 == h2;
      assert t1 == h1[..|h1| - 5] && t2 == h2[..|h2| - 5];
      NatToStringInjective(i, j);
    }
  }

  // Reading the ids back: what a consumer of a request can recover from it.

  /** Splits a deduplication id at its last dash into a token and an index. */
  function ReadDedupId(d: string): Option<(string, nat)> {
    var k := LastIndexOf(d, '-');
    if k < 0 || k + 1 == |d| || !AllDigits(d[k + 1..]) then None
    else Some((d[..k], Value(d[k + 1..])))
  }

  /** The id of request `i` of a batch gives back both the batch's token and `i`. */
  lemma DedupIdReadBack(token: string, i: nat)
    ensures ReadDedupId(DedupId(token, i)) == Some((token, i))
  {
    SplitAtLast(token, '-', NatToString(i));
    assert DedupId(token, i) == token + ['-'] + NatToString(i);
    ValueOfNatToString(i);
  }

  /** Splits a request path into the token and the index it names, or `None`
      when it is not in the form the dispatcher writes. */
  function ReadS3Path(p: string): Option<(string, nat)> {
    if |p| < |S3Folder| + 5 || p[..|S3Folder|] != S3Folder || p[|p| - 5..] != ".dwfx" then None
    else ReadS3Name(p[|S3Folder|..|p| - 5])
  }

  /** Reads `{token}/dwfx_{i}`, splitting at the last underscore. */
  function ReadS3Name(middle: string): Option<(string, nat)> {
    var k := LastIndexOf(middle, '_');
    if k < 5 || middle[k - 5..k] != "/dwfx" || k + 1 == |middle| || !AllDigits(middle[k + 1..]) then None
    else Some((middle[..k - 5], Value(middle[k + 1..])))
  }

  lemma ReadS3NameOf(token: string, i: nat)
    ensures ReadS3Name(token + "/dwfx" + ['_'] + NatToString(i)) == Some((token, i))
  {
    var h := token + "/dwfx";
    var middle := h + ['_'] + NatToString(i);
    SplitAtLast(h, '_', NatToString(i));
    assert middle[|h| - 5..|h|] == h[|h| - 5..] == "/dwfx";
    assert middle[..|h| - 5] == h[..|h| - 5] == token;
    ValueOfNatToString(i);
  }

  /** The path of request `i` of a batch gives back both the token and `i`. */
  lemma S3PathReadBack(token: string, i: nat)
    ensures ReadS3Path(S3PathFor(token, i)) == Some((token, i))
  {
    var p := S3PathFor(token, i);
    assert p == S3Folder + (token + "/dwfx_" + NatToString(i) + ".dwfx");
    assert p[..|S3Folder|] == S3Folder;
    assert p[|p| - 5..] == ".dwfx";
    S3PathSplit(token, i);
    ReadS3NameOf(token, i);
  }

  /** Request `i` of a batch of `n`: a `ProcessRequest` with no result, the
      callback queue to answer to, the batch size and its own index, a path
      and equal group and deduplication ids from which the token and the
      index can be read back. */
  lemma RequestCarries(token: string, callback: string, n: int, i: nat)
    ensures var p := RequestPayload(token, callback, n, i);
      && p.body.TypeOfMessage == ProcessRequest && p.body.Result == None
      && p.body.CallbackQueue == Some(callback)
      && p.body.TotalMessages == n && p.body.ThisMessage == i
      && ReadS3Path(p.body.S3Path) == Some((token, i))
      && p.groupId.Some? && p.dedupId == p.groupId
      && ReadDedupId(p.groupId.value) == Some((token, i))
  {
    S3PathReadBack(token, i);
    DedupIdReadBack(token, i);
  }

  // ---------------------------------------------------------------------
  // Sending the batch (the `for` loop over the indices).

  /** How often `for (var i = 0; i < n; i++)` runs its body. */
  function Iterations(n: int): nat {
    if n < 0 then 0 else n
  }

  /** What the `i`-th send of the batch comes back with: the transport's
      verdict when the processing queue exists, an exception otherwise. */
  function SendStatus(present: bool, verdict: nat -> Status, i: nat): Status {
    if present then verdict(i) else Raised
  }

  /** The number of sends among the first `k` that come back before the first
      exception: the index of the first send that raises, or `k`. */
  function Attempted(present: bool, verdict: nat -> Status, k: nat): (a: nat)
    ensures a <= k
    ensures forall i :: 0 <= i < a ==> SendStatus(present, verdict, i) != Raised
    ensures a < k ==> SendStatus(present, verdict, a) == Raised
  {
    if k == 0 then 0
    else
      var a := Attempted(present, verdict, k - 1);
      if a < k - 1 || SendStatus(present, verdict, k - 1) == Raised then a else k
  }

  /** The requests among the first `k` that the processing queue accepted, in index order. */
  function Accepted(token: string, callback: string, n: int, present: bool, verdict: nat -> Status, k: nat): seq<Payload> {
    if k == 0 then []
    else
      Accepted(token, callback, n, present, verdict, k - 1) +
      (if SendStatus(present, verdict, k - 1) == Ok then [RequestPayload(token, callback, n, k - 1)] else [])
  }

  /** The transport calls of the first `k` sends: every one to the processing
      queue, request `i` as the `i`-th. */
  function SendLog(token: string, callback: string, n: int, present: bool, verdict: nat -> Status, k: nat): (r: seq<Event>)
    ensures |r| == k
    ensures forall i :: 0 <= i < k ==>
      r[i] == Sent(ProcessingQueue, RequestPayload(token, callback, n, i), SendStatus(present, verdict, i))
  {
    if k == 0 then []
    else
      SendLog(token, callback, n, present, verdict, k - 1) +
      [Sent(ProcessingQueue, RequestPayload(token, callback, n, k - 1), SendStatus(present, verdict, k - 1))]
  }

  /** When every send is accepted the processing queue receives exactly the
      requests 0 .. k-1, in that order. */
  lemma {:induction false} AcceptedAllOk(token: string, callback: string, n: int, present: bool, verdict: nat -> Status, k: nat)
    requires forall i :: 0 <= i < k ==> SendStatus(present, verdict, i) == Ok
    ensures var r := Accepted(token, callback, n, present, verdict, k);
      |r| == k && forall i :: 0 <= i < k ==> r[i] == RequestPayload(token, callback, n, i)
  {
    if k > 0 {
      AcceptedAllOk(token, callback, n, present, verdict, k - 1);
    }
  }

  lemma PayloadsAppend(q: seq<Entry>, e: Entry)
    ensures Payloads(q + [e]) == Payloads(q) + [e.payload]
  {
  }

  /** Nothing is attempted after the first send that raises. */
  lemma AttemptedStops(present: bool, verdict: nat -> Status, i: nat, k: nat)
    requires Attempted(present, verdict, i) == i && i < k
    requires SendStatus(present, verdict, i) == Raised
    ensures Attempted(present, verdict, k) == i
  {
  }

  /** What the send loop keeps after `i` passes: none of them raised, the
      processing queue gained exactly the accepted requests, and the log
      holds exactly those sends. */
  ghost predicate SendProgress(token: string, callback: string, n: int, present: bool, verdict: nat -> Status,
                               q0: map<string, seq<Entry>>, log0: seq<Event>, i: nat, added: seq<Entry>,
                               qs: map<string, seq<Entry>>, log: seq<Event>)
  {
    && present == (ProcessingQueue in q0)
    && Attempted(present, verdict, i) == i
    && Payloads(added) == Accepted(token, callback, n, present, verdict, i)
    && qs == (if present then q0[ProcessingQueue := q0[ProcessingQueue] + added] else q0)
    && log == log0 + SendLog(token, callback, n, present, verdict, i)
  }

  /** A send of request `i` that does not raise keeps `SendProgress`; the
      request joins the processing queue only when it was accepted. */
  lemma {:induction false} SendAdvances(token: string, callback: string, n: int, present: bool, verdict: nat -> Status,
                     q0: map<string, seq<Entry>>, log0: seq<Event>, i: nat, added: seq<Entry>,
                     qs: map<string, seq<Entry>>, log: seq<Event>, status: Status, e: Entry,
                     qs': map<string, seq<Entry>>, log': seq<Event>)
    requires SendProgress(token, callback, n, present, verdict, q0, log0, i, added, qs, log)
    requires status == SendStatus(present, verdict, i) && status != Raised
    requires e.payload == RequestPayload(token, callback, n, i)
    requires qs' == if status == Ok then qs[ProcessingQueue := qs[ProcessingQueue] + [e]] else qs
    requires log' == log + [Sent(ProcessingQueue, RequestPayload(token, callback, n, i), status)]
    ensures SendProgress(token, callback, n, present, verdict, q0, log0, i + 1,
                         if status == Ok then added + [e] else added, qs', log')
  {
    assert SendLog(token, callback, n, present, verdict, i + 1) ==
      SendLog(token, callback, n, present, verdict, i) + [Sent(ProcessingQueue, RequestPayload(token, callback, n, i), status)];
    if status == Ok {
      PayloadsAppend(added, e);
      assert q0[ProcessingQueue] + added + [e] == q0[ProcessingQueue] + (added + [e]);
      UpdateTwice(q0, ProcessingQueue, q0[ProcessingQueue] + added, q0[ProcessingQueue] + (added + [e]));
    }
  }

  /** A send of request `i` that raises ends the loop: the sends that came
      back are the first `i`, and the log holds them and the one that raised. */
  lemma {:induction false} SendStops(token: string, callback: string, n: int, present: bool, verdict: nat -> Status,
                  q0: map<string, seq<Entry>>, log0: seq<Event>, i: nat, added: seq<Entry>,
                  qs: map<string, seq<Entry>>, log: seq<Event>, log': seq<Event>)
    requires i < Iterations(n)
    requires SendProgress(token, callback, n, present, verdict, q0, log0, i, added, qs, log)
    requires SendStatus(present, verdict, i) == Raised
    requires log' == log + [Sent(ProcessingQueue, RequestPayload(token, callback, n, i), Raised)]
    ensures Attempted(present, verdict, Iterations(n)) == i
    ensures log' == log0 + SendLog(token, callback, n, present, verdict, i + 1)
  {
    AttemptedStops(present, verdict, i, Iterations(n));
  }

  /** One pass of the send loop: build request `i` and send it to the
      processing queue with its group and deduplication ids. */
  method SendRequest(svc: QueueService, token: string, callback: string, n: int, i: nat, verdict: nat -> Status)
    returns (status: Status)
    requires svc.Valid()
    modifies svc
    ensures svc.Valid()
    ensures status == if ProcessingQueue in old(svc.queues) then verdict(i) else Raised
    ensures status == Ok ==>
      svc.queues == old(svc.queues)[ProcessingQueue :=
        old(svc.queues)[ProcessingQueue] + [Entry(RequestPayload(token, callback, n, i), old(svc.nextReceipt))]]
    ensures status != Ok ==> svc.queues == old(svc.queues)
    ensures svc.log == old(svc.log) + [Sent(ProcessingQueue, RequestPayload(token, callback, n, i), status)]
  {
    var msg := RequestFor(token, callback, n, i);
    status := svc.Send(ProcessingQueue, Payload(msg, Some(DedupId(token, i)), Some(DedupId(token, i))), verdict(i));
  }

  /** Sends request `i` for every index in order, ignoring the status of each
      send; an exception ends the batch at the send that raised it. `added`
      is what the processing queue gained. */
  method SendRequests(svc: QueueService, token: string, callback: string, n: int, verdict: nat -> Status)
    returns (raised: bool, ghost added: seq<Entry>)
    requires svc.Valid()
    modifies svc
    ensures svc.Valid()
    ensures var present := ProcessingQueue in old(svc.queues);
      var sent := Attempted(present, verdict, Iterations(n));
      && raised == (sent < Iterations(n))
      && svc.log == old(svc.log) + SendLog(token, callback, n, present, verdict, if raised then sent + 1 else sent)
      && Payloads(added) == Accepted(token, callback, n, present, verdict, sent)
      && svc.queues == if present then old(svc.queues)[ProcessingQueue := old(svc.queues)[ProcessingQueue] + added]
                       else old(svc.queues)
  {
    ghost var present := ProcessingQueue in svc.queues;
    ghost var q0 := svc.queues;
    ghost var log0 := svc.log;
    added := [];
    assert present ==> q0[ProcessingQueue] + added == q0[ProcessingQueue];
    var i := 0;
    while i < n
      invariant 0 <= i <= Iterations(n)
      invariant svc.Valid()
      invariant SendProgress(token, callback, n, present, verdict, q0, log0, i, added, svc.queues, svc.log)
    {
      ghost var receipt := svc.nextReceipt;
      ghost var qs, log := svc.queues, svc.log;
      var status := SendRequest(svc, token, callback, n, i, verdict);
      assert status == SendStatus(present, verdict, i);
      if status == Raised {
        SendStops(token, callback, n, present, verdict, q0, log0, i, added, qs, log, svc.log);
        raised := true;
        return;
      }
      ghost var e := Entry(RequestPayload(token, callback, n, i), receipt);
      SendAdvances(token, callback, n, present, verdict, q0, log0, i, added, qs, log, status, e, svc.queues, svc.log);
      if status == Ok {
        added := added + [e];
      }
      i := i + 1;
    }
    raised := false;
  }

  // ---------------------------------------------------------------------
  // Collecting the answers (the `while` loop over receives).

  /** How a bounded run of the receive loop ended: it counted enough messages,
      it used up its polls (the source would go on polling), or a receive raised. */
  datatype Await = Complete | OutOfPolls | Failed

  /** The messages of several receives, in the order they were received. */
  function Flatten(bs: seq<seq<Entry>>): seq<Entry> {
    if bs == [] then [] else Flatten(bs[..|bs| - 1]) + bs[|bs| - 1]
  }

  /** Deleting every message of a receive, each by its own receipt handle, in order. */
  function DeleteLog(url: string, b: seq<Entry>): (r: seq<Event>)
    ensures |r| == |b|
    ensures forall i :: 0 <= i < |b| ==> r[i] == Deleted(url, b[i].receipt)
  {
    if b == [] then [] else DeleteLog(url, b[..|b| - 1]) + [Deleted(url, b[|b| - 1].receipt)]
  }

  /** Each receive is followed by the deletes of what it handed back, before the next receive. */
  function PollLog(url: string, bs: seq<seq<Entry>>): seq<Event> {
    if bs == [] then []
    else PollLog(url, bs[..|bs| - 1]) + [Received(url, bs[|bs| - 1])] + DeleteLog(url, bs[|bs| - 1])
  }

  /** Receive number `k` asked for up to `n` messages and got as many as the
      transport offered of those still in the queue. */
  ghost predicate PolledAsOffered(bs: seq<seq<Entry>>, q0: seq<Entry>, n: int, available: nat -> nat)
    decreases |bs|
  {
    bs == [] ||
    var before := bs[..|bs| - 1];
    && PolledAsOffered(before, q0, n, available)
    && |Flatten(before)| <= |q0|
    && |bs[|bs| - 1]| == TakeCount(n, available(|bs| - 1), |q0| - |Flatten(before)|)
  }

  lemma PolledExtend(bs: seq<seq<Entry>>, b: seq<Entry>, q0: seq<Entry>, n: int, available: nat -> nat)
    requires PolledAsOffered(bs, q0, n, available)
    requires |Flatten(bs)| <= |q0| && |b| == TakeCount(n, available(|bs|), |q0| - |Flatten(bs)|)
    ensures PolledAsOffered(bs + [b], q0, n, available)
  {
    assert (bs + [b])[..|bs|] == bs;
  }

  lemma FlattenAppend(bs: seq<seq<Entry>>, b: seq<Entry>)
    ensures Flatten(bs + [b]) == Flatten(bs) + b
    ensures forall url :: PollLog(url, bs + [b]) == PollLog(url, bs) + [Received(url, b)] + DeleteLog(url, b)
  {
    assert (bs + [b])[..|bs|] == bs;
  }

  /** How many deletes of single messages a sequence of transport calls holds. */
  function DeletedCount(log: seq<Event>): nat {
    if log == [] then 0 else DeletedCount(log[..|log| - 1]) + (if log[|log| - 1].Deleted? then 1 else 0)
  }

  lemma {:induction false} DeletedCountAppend(a: seq<Event>, b: seq<Event>)
    ensures DeletedCount(a + b) == DeletedCount(a) + DeletedCount(b)
    decreases |b|
  {
    if b == [] {
      assert a + b == a;
    } else {
      assert (a + b)[..|a + b| - 1] == a + b[..|b| - 1];
      assert (a + b)[|a + b| - 1] == b[|b| - 1];
      DeletedCountAppend(a, b[..|b| - 1]);
    }
  }

  lemma {:induction false} DeleteLogCount(url: string, b: seq<Entry>)
    ensures DeletedCount(DeleteLog(url, b)) == |b|
    decreases |b|
  {
    if b != [] {
      DeleteLogCount(url, b[..|b| - 1]);
      DeletedCountAppend(DeleteLog(url, b[..|b| - 1]), [Deleted(url, b[|b| - 1].receipt)]);
      assert [Deleted(url, b[|b| - 1].receipt)][..0] == [];
    }
  }

  /** The count the receive loop keeps is the number of messages it deleted:
      the polls' calls hold one delete per message received. */
  lemma {:induction false} DeletesCounted(url: string, bs: seq<seq<Entry>>)
    ensures DeletedCount(PollLog(url, bs)) == |Flatten(bs)|
    decreases |bs|
  {
    if bs != [] {
      var last := bs[|bs| - 1];
      DeletesCounted(url, bs[..|bs| - 1]);
      DeletedCountAppend(PollLog(url, bs[..|bs| - 1]) + [Received(url, last)], DeleteLog(url, last));
      DeletedCountAppend(PollLog(url, bs[..|bs| - 1]), [Received(url, last)]);
      assert [Received(url, last)][..0] == [];
      DeleteLogCount(url, last);
    }
  }

  /** Deleting the next received message by its handle takes it off the head
      of what is left of the callback queue and logs that delete. */
  lemma {:induction false} DeleteAdvances(qs0: map<string, seq<Entry>>, log0: seq<Event>, callback: string,
                                          q: seq<Entry>, messages: seq<Entry>, j: nat,
                                          qs: map<string, seq<Entry>>, log: seq<Event>,
                                          qs': map<string, seq<Entry>>, log': seq<Event>)
    requires j < |messages| <= |q| && messages == q[..|messages|]
    requires qs == qs0[callback := q[j..]] && UniqueReceipts(q[j..])
    requires log == log0 + DeleteLog(callback, messages[..j])
    requires qs' == qs[callback := RemoveReceipt(qs[callback], messages[j].receipt)]
    requires log' == log + [Deleted(callback, messages[j].receipt)]
    ensures qs' == qs0[callback := q[j + 1..]]
    ensures log' == log0 + DeleteLog(callback, messages[..j + 1])
  {
    assert messages[j] == q[j..][0];
    RemoveUniqueHead(q[j..]);
    assert q[j..][1..] == q[j + 1..];
    UpdateTwice(qs0, callback, q[j..], q[j + 1..]);
    assert messages[..j + 1][..j] == messages[..j];
    assert DeleteLog(callback, messages[..j + 1]) ==
      DeleteLog(callback, messages[..j]) + [Deleted(callback, messages[j].receipt)];
  }

  /** The `foreach` over one receive's messages: delete each from the
      callback queue by its own receipt handle, then count it. The messages
      are the first ones of the queue. */
  method DeleteAndCount(svc: QueueService, callback: string, messages: seq<Entry>, counted: int)
    returns (total: int)
    requires svc.Valid() && callback in svc.queues
    requires |messages| <= |svc.queues[callback]| && messages == svc.queues[callback][..|messages|]
    modifies svc
    ensures svc.Valid() && svc.nextReceipt == old(svc.nextReceipt)
    ensures total == counted + |messages|
    ensures svc.queues == old(svc.queues)[callback := old(svc.queues)[callback][|messages|..]]
    ensures svc.log == old(svc.log) + DeleteLog(callback, messages)
  {
    ghost var qs0, log0, next0 := svc.queues, svc.log, svc.nextReceipt;
    ghost var q := svc.queues[callback];
    assert q[0..] == q && messages[..0] == [];
    assert qs0[callback := q[0..]] == qs0;
    total := counted;
    var j := 0;
    while j < |messages|
      invariant 0 <= j <= |messages| && total == counted + j
      invariant svc.Valid() && svc.nextReceipt == next0
      invariant svc.queues == qs0[callback := q[j..]]
      invariant svc.log == log0 + DeleteLog(callback, messages[..j])
    {
      ghost var qs, log := svc.queues, svc.log;
      assert UniqueReceipts(qs[callback]);
      svc.Delete(callback, messages[j].receipt);
      DeleteAdvances(qs0, log0, callback, q, messages, j, qs, log, svc.queues, svc.log);
      total := total + 1;
      j := j + 1;
    }
    assert messages[..j] == messages;
  }

  lemma LogAppend(a: seq<Event>, b: seq<Event>, c: seq<Event>, d: seq<Event>)
    ensures a + (b + c + d) == a + b + c + d
  {
  }

  lemma UpdateTwice(m: map<string, seq<Entry>>, k: string, a: seq<Entry>, b: seq<Entry>)
    ensures m[k := a][k := b] == m[k := b]
  {
  }

  /** What the receive loop keeps: the messages received so far are the first
      ones the callback queue held at the start, in order; the queue has lost
      exactly those; each receive got what was offered; and every receive was
      followed by the deletes of its messages. */
  ghost predicate Progress(qs0: map<string, seq<Entry>>, log0: seq<Event>, callback: string, n: int,
                           available: nat -> nat, bs: seq<seq<Entry>>, qs: map<string, seq<Entry>>, log: seq<Event>) {
    && callback in qs0
    && var q0 := qs0[callback];
    var t := |Flatten(bs)|;
    && t <= |q0| && Flatten(bs) == q0[..t]
    && qs == qs0[callback := q0[t..]]
    && PolledAsOffered(bs, q0, n, available)
    && log == log0 + PollLog(callback, bs)
  }

  /** One more poll that receives what the transport offers and deletes it keeps `Progress`. */
  lemma PollAdvances(qs0: map<string, seq<Entry>>, log0: seq<Event>, callback: string, n: int, available: nat -> nat,
                     bs: seq<seq<Entry>>, qs: map<string, seq<Entry>>, log: seq<Event>,
                     messages: seq<Entry>, qs': map<string, seq<Entry>>, log': seq<Event>)
    requires Progress(qs0, log0, callback, n, available, bs, qs, log)
    requires callback in qs && messages == qs[callback][..TakeCount(n, available(|bs|), |qs[callback]|)]
    requires qs' == qs[callback := qs[callback][|messages|..]]
    requires log' == log + [Received(callback, messages)] + DeleteLog(callback, messages)
    ensures Progress(qs0, log0, callback, n, available, bs + [messages], qs', log')
  {
    var q0 := qs0[callback];
    var t0 := |Flatten(bs)|;
    var t := t0 + |messages|;
    assert qs[callback] == q0[t0..];
    assert q0[t0..][..|messages|] == q0[t0..t];
    assert q0[..t0] + q0[t0..t] == q0[..t];
    assert q0[t0..][|messages|..] == q0[t..];
    PolledExtend(bs, messages, q0, n, available);
    FlattenAppend(bs, messages);
    LogAppend(log0, PollLog(callback, bs), [Received(callback, messages)], DeleteLog(callback, messages));
    UpdateTwice(qs0, callback, q0[t0..], q0[t..]);
  }

  /** One pass of the receive loop: ask the callback queue for up to `n`
      messages, then delete and count each one received. */
  method Poll(svc: QueueService, callback: string, n: int, offered: nat, counted: int)
    returns (status: Status, messages: seq<Entry>, total: int)
    requires svc.Valid()
    modifies svc
    ensures svc.Valid() && svc.nextReceipt == old(svc.nextReceipt)
    ensures status == if callback in old(svc.queues) then Ok else Raised
    ensures status == Ok ==>
      var q := old(svc.queues)[callback];
      && messages == q[..TakeCount(n, offered, |q|)]
      && total == counted + |messages|
      && svc.queues == old(svc.queues)[callback := q[|messages|..]]
      && svc.log == old(svc.log) + [Received(callback, messages)] + DeleteLog(callback, messages)
    ensures status == Raised ==>
      messages == [] && total == counted && svc.queues == old(svc.queues) &&
      svc.log == old(svc.log) + [Received(callback, [])]
  {
    status, messages := svc.Receive(callback, n, offered);
    total := counted;
    if status == Ok {
      total := DeleteAndCount(svc, callback, messages, counted);
    }
  }

  /** Polls the callback queue, asking each time for up to `n` messages;
      deletes every message received by its own receipt handle and counts it,
      and stops once the count reaches `n`. The source has no other way out
      of this loop: `maxPolls` bounds the number of receives the model makes. */
  method AwaitResponses(svc: QueueService, callback: string, n: int, available: nat -> nat, maxPolls: nat)
    returns (total: int, result: Await, ghost batches: seq<seq<Entry>>)
    requires svc.Valid()
    modifies svc
    ensures svc.Valid() && svc.nextReceipt == old(svc.nextReceipt)
    ensures total == |Flatten(batches)| && |batches| <= maxPolls
    ensures n <= 0 ==> batches == []
    ensures result == Complete <==> total >= n
    ensures result == OutOfPolls ==> |batches| == maxPolls
    ensures result == Failed <==> callback !in old(svc.queues) && n > 0 && maxPolls > 0
    ensures callback in old(svc.queues) ==>
      var q0 := old(svc.queues)[callback];
      && total <= |q0| && Flatten(batches) == q0[..total]
      && svc.queues == old(svc.queues)[callback := q0[total..]]
      && PolledAsOffered(batches, q0, n, available)
      && svc.log == old(svc.log) + PollLog(callback, batches)
    ensures callback !in old(svc.queues) ==>
      && svc.queues == old(svc.queues) && batches == []
      && svc.log == old(svc.log) + (if result == Failed then [Received(callback, [])] else [])
  {
    ghost var present := callback in svc.queues;
    ghost var qs0 := svc.queues;
    ghost var log0 := svc.log;
    total := 0;
    batches := [];
    assert present ==> qs0[callback := qs0[callback][0..]] == qs0;
    var polls := 0;
    while total < n && polls < maxPolls
      invariant 0 <= total && polls == |batches| <= maxPolls
      invariant svc.Valid() && svc.nextReceipt == old(svc.nextReceipt)
      invariant total == |Flatten(batches)|
      invariant present ==> Progress(qs0, log0, callback, n, available, batches, svc.queues, svc.log)
      invariant !present ==> svc.queues == qs0 && batches == [] && svc.log == log0
      invariant n <= 0 ==> batches == []
      decreases maxPolls - polls
    {
      ghost var qs := svc.queues;
      ghost var log := svc.log;
      var status, messages;
      status, messages, total := Poll(svc, callback, n, available(polls), total);
      if status == Raised {
        result := Failed;
        return;
      }
      PollAdvances(qs0, log0, callback, n, available, batches, qs, log, messages, svc.queues, svc.log);
      FlattenAppend(batches, messages);
      batches := batches + [messages];
      polls := polls + 1;
    }
    result := if total >= n then Complete else OutOfPolls;
  }

  // ---------------------------------------------------------------------
  // The whole batch.

  /** How a run of the dispatcher ends: it counted at least as many answers as
      it sent requests and deleted the callback queue; it is still polling; or
      a transport exception ended it before the teardown completed. */
  datatype BatchOutcome = Finished(received: int) | Polling(received: int) | Aborted

  /** The receive loop followed by the teardown of the callback queue, which
      happens only once the loop has ended normally. A teardown that raises
      ends the run in the exception handler as well. */
  method FinishBatch(svc: QueueService, callback: string, n: int, available: nat -> nat, maxPolls: nat)
    returns (outcome: BatchOutcome, ghost batches: seq<seq<Entry>>)
    requires svc.Valid()
    modifies svc
    ensures svc.Valid()
    ensures outcome == Aborted <==> callback !in old(svc.queues) && (n <= 0 || maxPolls > 0)
    ensures !outcome.Aborted? ==>
      outcome.received == |Flatten(batches)| && (outcome.Finished? <==> outcome.received >= n)
    ensures outcome.Polling? ==> |batches| == maxPolls
    ensures |batches| <= maxPolls && (n <= 0 ==> batches == [])
    ensures |svc.log| >= |old(svc.log)| && svc.log[..|old(svc.log)|] == old(svc.log)
    ensures outcome.Finished? ==> callback !in svc.queues
    ensures callback !in old(svc.queues) ==>
      && svc.queues == old(svc.queues) && batches == []
      && svc.log == old(svc.log) +
           if n <= 0 then [QueueDeleted(callback, Raised)]
           else if maxPolls > 0 then [Received(callback, [])]
           else []
    ensures callback in old(svc.queues) ==>
      var q0 := old(svc.queues)[callback];
      var total := |Flatten(batches)|;
      && total <= |q0| && Flatten(batches) == q0[..total]
      && PolledAsOffered(batches, q0, n, available)
      && (outcome.Finished? ==>
            svc.queues == old(svc.queues) - {callback} &&
            svc.log == old(svc.log) + PollLog(callback, batches) + [QueueDeleted(callback, Ok)])
      && (outcome.Polling? ==>
            svc.queues == old(svc.queues)[callback := q0[total..]] &&
            svc.log == old(svc.log) + PollLog(callback, batches))
  {
    var total, result;
    total, result, batches := AwaitResponses(svc, callback, n, available, maxPolls);
    match result
    case Complete =>
      var status := svc.DeleteQueue(callback);
      outcome := if status == Raised then Aborted else Finished(total);
    case OutOfPolls =>
      outcome := Polling(total);
    case Failed =>
      outcome := Aborted;
  }

  /** The queues once the callback queue exists and the processing queue,
      when there is one, has gained `added`. */
  function Started(qs: map<string, seq<Entry>>, callback: string, added: seq<Entry>): (r: map<string, seq<Entry>>)
    ensures callback in r && r.Keys == qs.Keys + {callback}
    ensures callback != ProcessingQueue ==> r[callback] == (if callback in qs then qs[callback] else [])
  {
    var created := if callback in qs then qs else qs[callback := []];
    if ProcessingQueue in created then created[ProcessingQueue := created[ProcessingQueue] + added] else created
  }

  /** The first half of the dispatcher's program: create the callback queue
      under the batch token, then send the batch. The processing queue gains
      `added`, the accepted requests. */
  method StartBatch(svc: QueueService, token: string, n: int, verdict: nat -> Status)
    returns (callback: string, raised: bool, ghost sends: seq<Event>, ghost added: seq<Entry>)
    requires svc.Valid()
    modifies svc
    ensures svc.Valid()
    ensures callback == QueueUrl(token) && callback in svc.queues
    ensures var present := ProcessingQueue in old(svc.queues) || callback == ProcessingQueue;
      var sent := Attempted(present, verdict, Iterations(n));
      && raised == (sent < Iterations(n))
      && sends == SendLog(token, callback, n, present, verdict, if raised then sent + 1 else sent)
      && Payloads(added) == Accepted(token, callback, n, present, verdict, sent)
    ensures svc.queues == Started(old(svc.queues), callback, added)
    ensures svc.log == old(svc.log) + [QueueCreated(callback)] + sends
  {
    ghost var log0 := svc.log;
    callback := svc.CreateQueue(token);
    raised, added := SendRequests(svc, token, callback, n, verdict);
    sends := svc.log[|log0| + 1..];
  }

  /** The dispatcher's program: create the callback queue under the batch
      token, send the batch, then collect the answers and tear the queue down.
      A send that raises skips everything after it, the teardown included.
      `added` is what the processing queue gained and `batches` what each
      receive on the callback queue handed back. */
  method RunBatch(svc: QueueService, token: string, n: int, verdict: nat -> Status, available: nat -> nat, maxPolls: nat)
    returns (outcome: BatchOutcome, ghost added: seq<Entry>, ghost batches: seq<seq<Entry>>)
    requires svc.Valid()
    modifies svc
    ensures svc.Valid()
    ensures var callback := QueueUrl(token);
      var present := ProcessingQueue in old(svc.queues) || callback == ProcessingQueue;
      var sent := Attempted(present, verdict, Iterations(n));
      && (outcome == Aborted <==> sent < Iterations(n))
      && (n <= 0 && !outcome.Aborted? ==> outcome == Finished(0) && batches == [])
      && Payloads(added) == Accepted(token, callback, n, present, verdict, sent)
    ensures var callback := QueueUrl(token);
      var present := ProcessingQueue in old(svc.queues) || callback == ProcessingQueue;
      var sent := Attempted(present, verdict, Iterations(n));
      var started := Started(old(svc.queues), callback, added);
      var sends := old(svc.log) + [QueueCreated(callback)] + SendLog(token, callback, n, present, verdict, sent);
      var q0 := started[callback];
      var total := |Flatten(batches)|;
      && (outcome == Aborted ==>
            svc.queues == started && batches == [] &&
            svc.log == old(svc.log) + [QueueCreated(callback)] + SendLog(token, callback, n, present, verdict, sent + 1))
      && (!outcome.Aborted? ==>
            && outcome.received == total && (outcome.Finished? <==> total >= n)
            && total <= |q0| && Flatten(batches) == q0[..total]
            && PolledAsOffered(batches, q0, n, available))
      && (outcome.Finished? ==>
            svc.queues == started - {callback} &&
            svc.log == sends + PollLog(callback, batches) + [QueueDeleted(callback, Ok)])
      && (outcome.Polling? ==>
            svc.queues == started[callback := q0[total..]] &&
            svc.log == sends + PollLog(callback, batches))
  {
    var callback, raised;
    ghost var sends;
    callback, raised, sends, added := StartBatch(svc, token, n, verdict);
    if raised {
      outcome := Aborted;
      batches := [];
      return;
    }
    outcome, batches := FinishBatch(svc, callback, n, available, maxPolls);
  }
}
