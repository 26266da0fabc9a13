/** The part of the kafka-node `Producer` the core relies on: `send(payloads, cb)`
    issues one request and later calls `cb` with an error or with none. The broker
    is not modelled; the producer keeps the log of every request it was handed and
    a script of the replies its callback will receive, one per call. */
module Kafka {
  import opened Base
  import opened Json

  /** One message of a produce request: `{key, value}`. */
  datatype Message = Message(key: string, value: JsonText)

  /** One entry of the payload array given to `send`: `{topic, messages}`. */
  datatype ProduceRequest = ProduceRequest(topic: string, messages: seq<Message>)

  /** What the producer has seen and what it will answer: `sent` holds the payload
      array of every `send` call in order; `replies` the callback error of the next calls
      (None: success). Calls beyond the script succeed. */
  datatype Broker = Broker(sent: seq<seq<ProduceRequest>>, replies: seq<Option<string>>)

  function NextReply(replies: seq<Option<string>>): Option<string>
  {
    if replies == [] then None else replies[0]
  }

  function LaterReplies(replies: seq<Option<string>>): seq<Option<string>>
  {
    if replies == [] then [] else replies[1..]
  }

  datatype Sent = Sent(broker: Broker, error: Option<string>)

  /** One `send` call: the payloads are appended to the log and the next scripted reply is consumed. */
  function SendSpec(b: Broker, payloads: seq<ProduceRequest>): (s: Sent)
    ensures s.broker.sent == b.sent + [payloads]
    ensures s.error == NextReply(b.replies)
    ensures |s.broker.replies| == if b.replies == [] then 0 else |b.replies| - 1
  {
    Sent(Broker(b.sent + [payloads], LaterReplies(b.replies)), NextReply(b.replies))
  }

  class Producer {
    var sent: seq<seq<ProduceRequest>>
    var replies: seq<Option<string>>

    function State(): Broker
      reads this
    {
      Broker(sent, replies)
    }

    constructor (replies: seq<Option<string>>)
      ensures State() == Broker([], replies)
    {
      this.sent := [];
      this.replies := replies;
    }

    /** `send(payloads, cb)`; the result is the error `cb` receives. */
    method Send(payloads: seq<ProduceRequest>) returns (err: Option<string>)
      modifies this
      ensures Sent(State(), err) == SendSpec(old(State()), payloads)
    {
      sent := sent + [payloads];
      err := NextReply(replies);
      replies := LaterReplies(replies);
    }
  }
}
