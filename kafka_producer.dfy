/** The message-bus sink (src/greeting/kafka_producer.rs): the bus message built from a
    greeting, the header injector the trace propagator writes through, and `store`, which
    sends one record inside a producer transaction. The broker's replies are parameters;
    a failing `.expect` is modelled as the outcome `Panicked` with its message. */
module KafkaProducer {
  import opened Results
  import opened Time
  import opened Service

  /** The greeting as the producer reads it: the domain record extended with the
      caller's reference, the server-side id (in its string form) and the map of
      lifecycle event times. */
  datatype KafkaGreeting = KafkaGreeting(
    externalReference: string,
    id: string,
    to: string,
    from: string,
    heading: string,
    message: string,
    created: NaiveDateTime,
    eventsCreated: map<string, NaiveDateTime>)

  /** `GreetingMessage`, the payload sent to the topic. */
  datatype GreetingMessage = GreetingMessage(
    externalReference: string,
    id: string,
    to: string,
    from: string,
    heading: string,
    message: string,
    created: NaiveDateTime,
    eventsCreated: map<string, NaiveDateTime>)

  /** `GreetingMessage::from(&Greeting)`: every field copied, the event map included. */
  function MessageFromGreeting(g: KafkaGreeting): (m: GreetingMessage)
    ensures m.externalReference == g.externalReference && m.id == g.id
    ensures m.to == g.to && m.from == g.from && m.heading == g.heading && m.message == g.message
    ensures m.created == g.created && m.eventsCreated == g.eventsCreated
  {
    GreetingMessage(g.externalReference, g.id, g.to, g.from, g.heading, g.message,
                    g.created, g.eventsCreated)
  }

  /** The message loses nothing: distinct greetings give distinct messages. */
  lemma MessageFromGreetingInjective(a: KafkaGreeting, b: KafkaGreeting)
    ensures MessageFromGreeting(a) == MessageFromGreeting(b) ==> a == b
  {
  }

  /** A record header. Values are kept as text; the header list the producer builds
      only ever holds present, text values. */
  datatype Header = Header(key: string, value: string)

  /** The number of headers under `key`. */
  function CountKey(headers: seq<Header>, key: string): nat
  {
    if headers == [] then 0
    else (if headers[0].key == key then 1 else 0) + CountKey(headers[1..], key)
  }

  /** Putting a header in front adds exactly one header under its key and none under
      any other: nothing is removed or replaced, an old header under the same key stays. */
  lemma PrependedKeyCounts(first: Header, headers: seq<Header>)
    ensures CountKey([first] + headers, first.key) == CountKey(headers, first.key) + 1
    ensures forall k :: k != first.key ==> CountKey([first] + headers, k) == CountKey(headers, k)
  {
  }

  /** The loop of `HeaderInjector::set`: a new list holding `first`, then every old
      header inserted after it in its original order. */
  method PrependHeader(first: Header, headers: seq<Header>) returns (rebuilt: seq<Header>)
    ensures rebuilt == [first] + headers
  {
    rebuilt := [first];
    for i := 0 to |headers|
      invariant rebuilt == [first] + headers[..i]
    {
      rebuilt := rebuilt + [headers[i]];
    }
    assert headers[..|headers|] == headers;
  }

  /** `HeaderInjector`, through which the trace propagator writes; `headers` is the
      record's header list it borrows. */
  class HeaderInjector {
    var headers: seq<Header>

    constructor (headers: seq<Header>)
      ensures this.headers == headers
    {
      this.headers := headers;
    }

    /** `set(key, value)`: the new header first, then all old headers in order;
        the rebuilt list replaces the borrowed one. */
    method Set(key: string, value: string)
      modifies this
      ensures headers == [Header(key, value)] + old(headers)
    {
      var rebuilt := PrependHeader(Header(key, value), headers);
      headers := rebuilt;
    }
  }

  /** The header list after the propagator has called `set` once for each entry of
      `sets`, in order, starting from `headers`. */
  function Injected(headers: seq<Header>, sets: seq<Header>): (r: seq<Header>)
    ensures |r| == |headers| + |sets|
  {
    if sets == [] then headers
    else [sets[|sets| - 1]] + Injected(headers, sets[..|sets| - 1])
  }

  /** After the propagator the original headers are still there, in order, at the end;
      the injected ones precede them, most recent first. */
  lemma {:induction false} InjectedShape(headers: seq<Header>, sets: seq<Header>)
    ensures |Injected(headers, sets)| == |headers| + |sets|
    ensures Injected(headers, sets)[|sets|..] == headers
    ensures forall i :: 0 <= i < |sets| ==> Injected(headers, sets)[i] == sets[|sets| - 1 - i]
  {
    if sets != [] {
      var earlier := sets[..|sets| - 1];
      InjectedShape(headers, earlier);
      assert Injected(headers, sets) == [sets[|sets| - 1]] + Injected(headers, earlier);
    }
  }

  /** The key of the one header `store` starts from. */
  const IdHeaderKey: string := "id"

  /** `partition(-1)`: let the producer choose the partition. */
  const AnyPartition: int := -1

  /** A `FutureRecord`: topic, headers, payload, key and partition. The payload is the
      message before its JSON serialisation. */
  datatype Record = Record(
    topic: string,
    headers: seq<Header>,
    payload: GreetingMessage,
    key: string,
    partition: int)

  /** The record `store` sends for `g`, given the headers the propagator set. Its key,
      its payload's id and its `"id"` header (the last one) are all the greeting's id. */
  function OutgoingRecord(topic: string, g: KafkaGreeting, traceContext: seq<Header>): (rec: Record)
    ensures rec.topic == topic && rec.partition == AnyPartition
    ensures rec.payload == MessageFromGreeting(g)
    ensures rec.key == g.id && rec.payload.id == g.id
    ensures |rec.headers| == |traceContext| + 1
    ensures rec.headers[|rec.headers| - 1] == Header(IdHeaderKey, g.id)
  {
    var msg := MessageFromGreeting(g);
    var headers := Injected([Header(IdHeaderKey, msg.id)], traceContext);
    InjectedShape([Header(IdHeaderKey, msg.id)], traceContext);
    assert headers[|traceContext|..] == [Header(IdHeaderKey, msg.id)];
    Record(topic, headers, msg, msg.id, AnyPartition)
  }

  /** `rdkafka::error::KafkaError`, represented by its string form. */
  datatype KafkaError = KafkaError(text: string)

  /** `From<KafkaError> for ServiceError`: a `RepoError` carrying the string form. */
  function ServiceErrorFromKafka(e: KafkaError): (r: ServiceError)
    ensures r.RepoError? && r.detail == e.text
  {
    ServiceError.RepoError(e.text)
  }

  /** The calls the repository makes on its producer. */
  datatype ProducerCall =
    | BeginTransaction
    | Send(record: Record)
    | CommitTransaction
    | FetchMetadata(topic: string)

  /** The transactional producer, as the sequence of calls made on it. What the broker
      answers to each call is passed in. */
  class Producer {
    var calls: seq<ProducerCall>

    constructor ()
      ensures calls == []
    {
      calls := [];
    }

    method BeginTransaction(reply: Result<(), KafkaError>) returns (r: Result<(), KafkaError>)
      modifies this
      ensures calls == old(calls) + [ProducerCall.BeginTransaction] && r == reply
    {
      calls := calls + [ProducerCall.BeginTransaction];
      r := reply;
    }

    method Send(record: Record, reply: Result<(), KafkaError>) returns (r: Result<(), KafkaError>)
      modifies this
      ensures calls == old(calls) + [ProducerCall.Send(record)] && r == reply
    {
      calls := calls + [ProducerCall.Send(record)];
      r := reply;
    }

    method CommitTransaction(reply: Result<(), KafkaError>) returns (r: Result<(), KafkaError>)
      modifies this
      ensures calls == old(calls) + [ProducerCall.CommitTransaction] && r == reply
    {
      calls := calls + [ProducerCall.CommitTransaction];
      r := reply;
    }

    method FetchMetadata(topic: string, reply: Result<(), KafkaError>) returns (r: Result<(), KafkaError>)
      modifies this
      ensures calls == old(calls) + [ProducerCall.FetchMetadata(topic)] && r == reply
    {
      calls := calls + [ProducerCall.FetchMetadata(topic)];
      r := reply;
    }
  }

  /** How a call of the repository ends: it returns its result, or an `.expect` panics
      with its message. */
  datatype Outcome = Returned(result: Result<(), ServiceError>) | Panicked(message: string)

  const BeginPanic: string := "Failed beginning transaction"
  const SendPanic: string := "Failed"
  const CommitPanic: string := "Error comiting transaction"
  const FetchPanic: string := "Failed fetch metadata"

  /** The calls `store` makes, given the broker's replies to the first two: it always
      begins a transaction, sends only inside a begun one, and commits only after a
      successful send. */
  function StoreCalls(record: Record, beginReply: Result<(), KafkaError>,
                      sendReply: Result<(), KafkaError>): (calls: seq<ProducerCall>)
    ensures 1 <= |calls| <= 3 && calls[0] == ProducerCall.BeginTransaction
    ensures ProducerCall.Send(record) in calls <==> beginReply.Ok?
    ensures ProducerCall.CommitTransaction in calls <==> beginReply.Ok? && sendReply.Ok?
    ensures ProducerCall.CommitTransaction in calls ==>
              calls == [ProducerCall.BeginTransaction, ProducerCall.Send(record), ProducerCall.CommitTransaction]
  {
    [ProducerCall.BeginTransaction] +
    if beginReply.Err? then []
    else [ProducerCall.Send(record)] + if sendReply.Err? then [] else [ProducerCall.CommitTransaction]
  }

  /** `KafkaGreetingRepository`: a transactional producer and the topic it writes to. */
  class KafkaGreetingRepository {
    const producer: Producer
    const topic: string

    constructor (producer: Producer, topic: string)
      ensures this.producer == producer && this.topic == topic
    {
      this.producer := producer;
      this.topic := topic;
    }

    /** `store`: builds the message, starts the headers from `("id", id)`, lets the
        propagator set each entry of `traceContext`, then begins a transaction, sends
        the record keyed by the id, and commits. It returns `Ok` only when all three
        calls succeeded, and never returns an error: a failure panics. */
    method Store(greeting: KafkaGreeting, traceContext: seq<Header>,
                 beginReply: Result<(), KafkaError>, sendReply: Result<(), KafkaError>,
                 commitReply: Result<(), KafkaError>)
      returns (outcome: Outcome)
      modifies producer
      ensures producer.calls ==
                old(producer.calls) + StoreCalls(OutgoingRecord(topic, greeting, traceContext), beginReply, sendReply)
      ensures outcome.Returned? <==> beginReply.Ok? && sendReply.Ok? && commitReply.Ok?
      ensures outcome.Returned? ==> outcome.result == Ok(())
      ensures beginReply.Err? ==> outcome == Panicked(BeginPanic)
      ensures beginReply.Ok? && sendReply.Err? ==> outcome == Panicked(SendPanic)
      ensures beginReply.Ok? && sendReply.Ok? && commitReply.Err? ==> outcome == Panicked(CommitPanic)
    {
      var msg := MessageFromGreeting(greeting);
      var initial := [Header(IdHeaderKey, msg.id)];
      var injector := new HeaderInjector(initial);
      // the propagator: one `set` per entry of the trace context
      for i := 0 to |traceContext|
        invariant injector.headers == Injected(initial, traceContext[..i])
        invariant producer.calls == old(producer.calls)
      {
        assert traceContext[..i + 1][..i] == traceContext[..i];
        injector.Set(traceContext[i].key, traceContext[i].value);
      }
      assert traceContext[..|traceContext|] == traceContext;
      var record := Record(topic, injector.headers, msg, msg.id, AnyPartition);
      assert record == OutgoingRecord(topic, greeting, traceContext);

      var begun := producer.BeginTransaction(beginReply);
      if begun.Err? {
        return Panicked(BeginPanic);
      }
      var sent := producer.Send(record, sendReply);
      if sent.Err? {
        return Panicked(SendPanic);
      }
      var committed := producer.CommitTransaction(commitReply);
      if committed.Err? {
        return Panicked(CommitPanic);
      }
      return Returned(Ok(()));
    }

    /** `peek_topic`: fetches the topic's metadata; `Ok` when the broker answers, a
        panic otherwise. */
    method PeekTopic(reply: Result<(), KafkaError>) returns (outcome: Outcome)
      modifies producer
      ensures producer.calls == old(producer.calls) + [ProducerCall.FetchMetadata(topic)]
      ensures reply.Ok? ==> outcome == Returned(Ok(()))
      ensures reply.Err? ==> outcome == Panicked(FetchPanic)
    {
      var fetched := producer.FetchMetadata(topic, reply);
      if fetched.Err? {
        return Panicked(FetchPanic);
      }
      return Returned(Ok(()));
    }
  }

  /** `store` on a repository over a fresh producer, for any greeting, trace context and
      broker replies: the producer sees begin, send and commit in that order, and only
      when all three succeed does `store` return, with `Ok`. */
  method StoreOnFreshProducer(topic: string, greeting: KafkaGreeting, traceContext: seq<Header>,
                              beginReply: Result<(), KafkaError>, sendReply: Result<(), KafkaError>,
                              commitReply: Result<(), KafkaError>)
    returns (outcome: Outcome, calls: seq<ProducerCall>)
    ensures outcome == Returned(Ok(())) <==> beginReply.Ok? && sendReply.Ok? && commitReply.Ok?
    ensures calls == StoreCalls(OutgoingRecord(topic, greeting, traceContext), beginReply, sendReply)
    ensures outcome.Returned? ==>
              calls == [ProducerCall.BeginTransaction,
                        ProducerCall.Send(OutgoingRecord(topic, greeting, traceContext)),
                        ProducerCall.CommitTransaction]
  {
    var producer := new Producer();
    var repo := new KafkaGreetingRepository(producer, topic);
    outcome := repo.Store(greeting, traceContext, beginReply, sendReply, commitReply);
    calls := producer.calls;
  }
}
