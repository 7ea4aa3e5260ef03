/** An in-memory stand-in for the queue transport both programs talk to: named
    queues of messages, each message with its receipt handle. Everything the
    transport decides by itself (whether a send is accepted, how many messages a
    receive hands back) is a parameter of the call. */
module Queues {
  import opened Common

  /** What a call to the transport comes back with: an OK response, a response
      with another HTTP status, or an `AmazonSQSException`. */
  datatype Status = Ok | NotOk | Raised

  /** A message body together with the FIFO options it was sent with. */
  datatype Payload = Payload(body: Message, groupId: Option<string>, dedupId: Option<string>)

  /** A message held by a queue and the receipt handle it is deleted with. */
  datatype Entry = Entry(payload: Payload, receipt: nat)

  /** The calls made to the transport, in the order they were made. */
  datatype Event =
    | QueueCreated(url: string)
    | QueueDeleted(url: string, status: Status)
    | Sent(url: string, payload: Payload, status: Status)
    | Received(url: string, entries: seq<Entry>)
    | Deleted(url: string, receipt: nat)

  const AccountUrl := "https://queue.amazonaws.com/257724145439/"

  /** The name the processing queue is created under. */
  const ProcessingName := "NewDWFxFile.fifo"

  /** The shared processing queue, addressed by both programs by this fixed URL. */
  const ProcessingQueue := QueueUrl(ProcessingName)

  /** The URL the transport gives a queue created under `name`. */
  function QueueUrl(name: string): string {
    AccountUrl + name
  }

  lemma QueueUrlInjective(a: string, b: string)
    ensures QueueUrl(a) == QueueUrl(b) <==> a == b
  {
    if QueueUrl(a) == QueueUrl(b) {
      assert a == QueueUrl(a)[|AccountUrl|..];
      assert b == QueueUrl(b)[|AccountUrl|..];
    }
  }

  function Payloads(q: seq<Entry>): (ps: seq<Payload>)
    ensures |ps| == |q|
  {
    seq(|q|, i requires 0 <= i < |q| => q[i].payload)
  }

  /** How many messages one receive hands back: no more than asked for, than
      the transport offers, or than the queue holds. */
  function TakeCount(max: int, available: nat, len: nat): (k: nat)
    ensures k <= len && k <= available && k <= (if max < 0 then 0 else max)
    ensures max > 0 && available > 0 && len > 0 ==> k > 0
  {
    if max <= 0 then 0
    else if max <= available && max <= len then max
    else if available <= len then available
    else len
  }

  predicate UniqueReceipts(q: seq<Entry>) {
    forall i, j :: 0 <= i < j < |q| ==> q[i].receipt != q[j].receipt
  }

  predicate ReceiptsBelow(q: seq<Entry>, bound: nat) {
    forall i :: 0 <= i < |q| ==> q[i].receipt < bound
  }

  /** The queue after deleting the message whose receipt handle is `h`. */
  function RemoveReceipt(q: seq<Entry>, h: nat): (r: seq<Entry>)
    ensures forall e :: e in r <==> e in q && e.receipt != h
    ensures |r| <= |q|
  {
    if q == [] then []
    else (if q[0].receipt == h then [] else [q[0]]) + RemoveReceipt(q[1..], h)
  }

  lemma {:induction false} RemoveAbsent(q: seq<Entry>, h: nat)
    requires forall i :: 0 <= i < |q| ==> q[i].receipt != h
    ensures RemoveReceipt(q, h) == q
  {
    if q != [] {
      RemoveAbsent(q[1..], h);
      assert q == [q[0]] + q[1..];
    }
  }

  /** With unique receipts, deleting the first message by its handle removes it and nothing else. */
  lemma RemoveUniqueHead(q: seq<Entry>)
    requires q != [] && UniqueReceipts(q)
    ensures RemoveReceipt(q, q[0].receipt) == q[1..]
  {
    RemoveAbsent(q[1..], q[0].receipt);
  }

  lemma {:induction false} RemoveKeepsUnique(q: seq<Entry>, h: nat)
    requires UniqueReceipts(q)
    ensures UniqueReceipts(RemoveReceipt(q, h))
  {
    if q != [] {
      RemoveKeepsUnique(q[1..], h);
      var t := RemoveReceipt(q[1..], h);
      var r := RemoveReceipt(q, h);
      if q[0].receipt != h {
        assert r == [q[0]] + t;
        forall i, j | 0 <= i < j < |r| ensures r[i].receipt != r[j].receipt {
          if i == 0 {
            assert r[j] in t;
            var k :| 0 <= k < |q[1..]| && q[1..][k] == r[j];
            assert q[k + 1] == r[j];
          } else {
            assert r[i] == t[i - 1] && r[j] == t[j - 1];
          }
        }
      } else {
        assert r == t;
      }
    }
  }

  lemma RemoveKeepsBelow(q: seq<Entry>, h: nat, bound: nat)
    requires ReceiptsBelow(q, bound)
    ensures ReceiptsBelow(RemoveReceipt(q, h), bound)
  {
    var r := RemoveReceipt(q, h);
    forall i | 0 <= i < |r| ensures r[i].receipt < bound {
      assert r[i] in q;
    }
  }

  class QueueService {
    var queues: map<string, seq<Entry>>
    var nextReceipt: nat
    ghost var log: seq<Event>

    /** Every queue tells its messages apart by their receipt handles, and
        the next handle is new. */
    ghost predicate Valid()
      reads this
    {
      forall url :: url in queues ==> UniqueReceipts(queues[url]) && ReceiptsBelow(queues[url], nextReceipt)
    }

    constructor ()
      ensures Valid()
      ensures queues == map[] && nextReceipt == 0 && log == []
    {
      queues := map[];
      nextReceipt := 0;
      log := [];
    }

    /** Creating a queue that already exists hands back the existing queue. */
    method CreateQueue(name: string) returns (url: string)
      requires Valid()
      modifies this
      ensures Valid()
      ensures url == QueueUrl(name)
      ensures queues == if url in old(queues) then old(queues) else old(queues)[url := []]
      ensures nextReceipt == old(nextReceipt)
      ensures log == old(log) + [QueueCreated(url)]
    {
      url := QueueUrl(name);
      if url !in queues {
        queues := queues[url := []];
      }
      log := log + [QueueCreated(url)];
    }

    method DeleteQueue(url: string) returns (status: Status)
      requires Valid()
      modifies this
      ensures Valid()
      ensures status == if url in old(queues) then Ok else Raised
      ensures queues == old(queues) - {url}
      ensures nextReceipt == old(nextReceipt)
      ensures log == old(log) + [QueueDeleted(url, status)]
    {
      if url in queues {
        status := Ok;
        queues := queues - {url};
      } else {
        status := Raised;
      }
      log := log + [QueueDeleted(url, status)];
    }

    /** A send to a queue that does not exist raises; otherwise the transport's
        `verdict` decides, and only an accepted message joins the queue. */
    method Send(url: string, payload: Payload, verdict: Status) returns (status: Status)
      requires Valid()
      modifies this
      ensures Valid()
      ensures status == if url in old(queues) then verdict else Raised
      ensures status == Ok ==>
        queues == old(queues)[url := old(queues)[url] + [Entry(payload, old(nextReceipt))]] &&
        nextReceipt == old(nextReceipt) + 1
      ensures status != Ok ==> queues == old(queues) && nextReceipt == old(nextReceipt)
      ensures log == old(log) + [Sent(url, payload, status)]
    {
      status := if url in queues then verdict else Raised;
      if status == Ok {
        var q := queues[url] + [Entry(payload, nextReceipt)];
        assert ReceiptsBelow(q, nextReceipt + 1);
        queues := queues[url := q];
        nextReceipt := nextReceipt + 1;
      }
      log := log + [Sent(url, payload, status)];
    }

    /** Hands back the first messages of the queue, at most `max` of them and
        at most `available`; they stay in the queue until deleted. */
    method Receive(url: string, max: int, available: nat) returns (status: Status, batch: seq<Entry>)
      requires Valid()
      modifies this`log
      ensures Valid()
      ensures status == if url in queues then Ok else Raised
      ensures batch == if url in queues then queues[url][..TakeCount(max, available, |queues[url]|)] else []
      ensures log == old(log) + [Received(url, batch)]
    {
      if url in queues {
        status := Ok;
        batch := queues[url][..TakeCount(max, available, |queues[url]|)];
      } else {
        status := Raised;
        batch := [];
      }
      log := log + [Received(url, batch)];
    }

    /** Deletes from the queue the message the receipt handle belongs to. */
    method Delete(url: string, receipt: nat)
      requires Valid() && url in queues
      modifies this`queues, this`log
      ensures Valid()
      ensures queues == old(queues)[url := RemoveReceipt(old(queues)[url], receipt)]
      ensures log == old(log) + [Deleted(url, receipt)]
    {
      RemoveKeepsUnique(queues[url], receipt);
      RemoveKeepsBelow(queues[url], receipt, nextReceipt);
      queues := queues[url := RemoveReceipt(queues[url], receipt)];
      log := log + [Deleted(url, receipt)];
    }
  }
}
