/** `KafkaStore`: the write handle the processing callback receives. `save` and
    `insert` turn one entity or a list of entities into a single produce request
    for the store's topic; every other Store method fails. */
module Store {
  import opened Base
  import opened Json
  import opened Kafka

  /** An entity: its `id` and its other enumerable properties, in order. */
  datatype Entity = Entity(id: string, fields: seq<Field>)

  /** The object `JSON.stringify` sees for an entity: `id` first, then the other properties. */
  function EntityValue(e: Entity): Value
  {
    Obj([Field("id", Str(e.id))] + e.fields)
  }

  /** The argument of `save` and `insert`: `E | E[]`. */
  datatype EntityOrEntities = One(entity: Entity) | Many(entities: seq<Entity>)

  /** `Array.isArray(x) ? x : [x]`. */
  function Items(x: EntityOrEntities): (items: seq<Entity>)
    ensures x.One? ==> items == [x.entity]
    ensures x.Many? ==> items == x.entities
  {
    match x
    case One(e) => [e]
    case Many(es) => es
  }

  function ToMessage(e: Entity): Message
  {
    Message(e.id, StringifyWithBigInt(EntityValue(e)))
  }

  /** `items.map(item => ({key: item.id, value: stringifyWithBigInt(item)}))`. */
  function ToMessages(items: seq<Entity>): (ms: seq<Message>)
    ensures |ms| == |items|
    ensures forall i :: 0 <= i < |items| ==> ms[i].key == items[i].id
    ensures forall i :: 0 <= i < |items| ==> ms[i].value == StringifyWithBigInt(EntityValue(items[i]))
  {
    if items == [] then [] else [ToMessage(items[0])] + ToMessages(items[1..])
  }

  /** The payload array of the one `send` call a `save` makes. */
  function SaveRequest(topic: string, x: EntityOrEntities): seq<ProduceRequest>
  {
    [ProduceRequest(topic, ToMessages(Items(x)))]
  }

  datatype Relayed = Relayed(broker: Broker, outcome: Outcome)

  /** `save(x)` against a producer in state b: one `send`, rejected iff its callback gets an error. */
  function SaveSpec(b: Broker, topic: string, x: EntityOrEntities): Relayed
  {
    var s := SendSpec(b, SaveRequest(topic, x));
    Relayed(s.broker, if s.error.Some? then Fail(ProducerError(s.error.value)) else Pass)
  }

  /** What a processing callback does with its handle, one awaited call at a time. */
  datatype StoreCall =
    | CallSave(x: EntityOrEntities)
    | CallInsert(x: EntityOrEntities)
    | CallThrow(code: string, message: string)   // the callback throws an error of its own

  /** The effect of `await cb(store)`: the calls run in order and the first failure ends the callback. */
  function CallbackSpec(b: Broker, topic: string, calls: seq<StoreCall>): Relayed
    decreases |calls|
  {
    if calls == [] then Relayed(b, Pass)
    else
      match calls[0]
      case CallThrow(code, message) => Relayed(b, Fail(Thrown(code, message)))
      case CallSave(x) =>
        var r := SaveSpec(b, topic, x);
        if r.outcome.Fail? then r else CallbackSpec(r.broker, topic, calls[1..])
      case CallInsert(x) =>
        var r := SaveSpec(b, topic, Many(Items(x)));
        if r.outcome.Fail? then r else CallbackSpec(r.broker, topic, calls[1..])
  }

  /** The number of `send` calls a callback script issues when every reply is a success. */
  function SendCount(calls: seq<StoreCall>): nat
  {
    if calls == [] || calls[0].CallThrow? then 0 else 1 + SendCount(calls[1..])
  }

  /** `insert(x)` is `save` on the normalised list, and so the same as `save(x)`. */
  lemma InsertIsSave(b: Broker, topic: string, x: EntityOrEntities)
    ensures SaveSpec(b, topic, Many(Items(x))) == SaveSpec(b, topic, x)
  {
  }

  /** Each `save` issues exactly one `send`, with one topic entry for the store's topic,
      one message per item in order, and is rejected iff the producer reports an error. */
  lemma SaveShape(b: Broker, topic: string, x: EntityOrEntities)
    ensures var r := SaveSpec(b, topic, x);
      && |r.broker.sent| == |b.sent| + 1
      && r.broker.sent[..|b.sent|] == b.sent
      && |r.broker.sent[|b.sent|]| == 1
      && r.broker.sent[|b.sent|][0].topic == topic
      && |r.broker.sent[|b.sent|][0].messages| == |Items(x)|
      && (forall i :: 0 <= i < |Items(x)| ==> r.broker.sent[|b.sent|][0].messages[i].key == Items(x)[i].id)
      && (r.outcome.Fail? <==> NextReply(b.replies).Some?)
  {
  }

  /** A callback only appends to the producer's log, and when every reply is a success
      it succeeds unless it throws, having sent one batch per save or insert before that. */
  lemma {:induction false} CallbackAppendsBatches(b: Broker, topic: string, calls: seq<StoreCall>)
    decreases |calls|
    ensures var r := CallbackSpec(b, topic, calls);
      |b.sent| <= |r.broker.sent| && r.broker.sent[..|b.sent|] == b.sent
    ensures (forall i :: 0 <= i < |b.replies| ==> b.replies[i].None?) ==>
      var r := CallbackSpec(b, topic, calls);
      && |r.broker.sent| == |b.sent| + SendCount(calls)
      && (forall i :: 0 <= i < |r.broker.replies| ==> r.broker.replies[i].None?)
      && (r.outcome.Pass? <==> forall i :: 0 <= i < |calls| ==> !calls[i].CallThrow?)
  {
    if calls != [] && !calls[0].CallThrow? {
      var x := if calls[0].CallSave? then calls[0].x else Many(Items(calls[0].x));
      var s := SaveSpec(b, topic, x);
      CallbackAppendsBatches(s.broker, topic, calls[1..]);
      if s.outcome.Pass? {
        var r := CallbackSpec(s.broker, topic, calls[1..]);
        assert r.broker.sent[..|s.broker.sent|] == s.broker.sent;
        assert r.broker.sent[..|b.sent|] == s.broker.sent[..|b.sent|];
      }
      if forall i :: 0 <= i < |b.replies| ==> b.replies[i].None? {
        assert forall i :: 0 <= i < |s.broker.replies| ==> s.broker.replies[i] == b.replies[i + 1];
        assert s.outcome.Pass?;
        assert forall i :: 0 <= i < |calls[1..]| ==> calls[1..][i] == calls[i + 1];
      }
    }
  }

  class KafkaStore {
    const producer: Producer
    const topic: string

    constructor (producer: Producer, topic: string)
      ensures this.producer == producer && this.topic == topic
    {
      this.producer := producer;
      this.topic := topic;
    }

    /** `save(entityOrEntities)`: one `send` of every item to the topic. */
    method Save(x: EntityOrEntities) returns (r: Outcome)
      modifies producer
      ensures Relayed(producer.State(), r) == SaveSpec(old(producer.State()), topic, x)
    {
      var items := Items(x);
      var messages := ToMessages(items);
      var err := producer.Send([ProduceRequest(topic, messages)]);
      if err.Some? {
        r := Fail(ProducerError(err.value));
      } else {
        r := Pass;
      }
    }

    /** `insert(entityOrEntities)`: `save` on the normalised list. */
    method Insert(x: EntityOrEntities) returns (r: Outcome)
      modifies producer
      ensures Relayed(producer.State(), r) == SaveSpec(old(producer.State()), topic, x)
    {
      var items := Items(x);
      r := Save(Many(items));
    }

    // The remaining Store methods all throw 'Method not implemented.'. Their
    // query options are ignored by the source and are not modelled.

    method SaveMany(entities: seq<Entity>) returns (r: Outcome)
      ensures r == Fail(NotImplemented)
    {
      r := Fail(NotImplemented);
    }

    method GetFkSignature() returns (r: Result<string>)
      ensures r == Err(NotImplemented)
    {
      r := Err(NotImplemented);
    }

    method UpsertMany(entities: seq<Entity>) returns (r: Outcome)
      ensures r == Fail(NotImplemented)
    {
      r := Fail(NotImplemented);
    }

    method Upsert(x: EntityOrEntities) returns (r: Outcome)
      ensures r == Fail(NotImplemented)
    {
      r := Fail(NotImplemented);
    }

    /** `remove(entity | entities)` and `remove(entityClass, id | ids)`. */
    method Remove(target: RemoveTarget) returns (r: Outcome)
      ensures r == Fail(NotImplemented)
    {
      r := Fail(NotImplemented);
    }

    method Count(entityClass: string) returns (r: Result<nat>)
      ensures r == Err(NotImplemented)
    {
      r := Err(NotImplemented);
    }

    method CountBy(entityClass: string) returns (r: Result<nat>)
      ensures r == Err(NotImplemented)
    {
      r := Err(NotImplemented);
    }

    method Find(entityClass: string) returns (r: Result<seq<Entity>>)
      ensures r == Err(NotImplemented)
    {
      r := Err(NotImplemented);
    }

    method FindBy(entityClass: string) returns (r: Result<seq<Entity>>)
      ensures r == Err(NotImplemented)
    {
      r := Err(NotImplemented);
    }

    method FindOne(entityClass: string) returns (r: Result<Option<Entity>>)
      ensures r == Err(NotImplemented)
    {
      r := Err(NotImplemented);
    }

    method FindOneBy(entityClass: string) returns (r: Result<Option<Entity>>)
      ensures r == Err(NotImplemented)
    {
      r := Err(NotImplemented);
    }

    method FindOneOrFail(entityClass: string) returns (r: Result<Entity>)
      ensures r == Err(NotImplemented)
    {
      r := Err(NotImplemented);
    }

    method FindOneByOrFail(entityClass: string) returns (r: Result<Entity>)
      ensures r == Err(NotImplemented)
    {
      r := Err(NotImplemented);
    }

    /** `get(entityClass, optionsOrId)`. */
    method Get(entityClass: string, id: Option<string>) returns (r: Result<Option<Entity>>)
      ensures r == Err(NotImplemented)
    {
      r := Err(NotImplemented);
    }
  }

  /** The two argument shapes of `remove`. */
  datatype RemoveTarget = Entities(x: EntityOrEntities) | ById(entityClass: string, ids: seq<string>)

  /** `await cb(store)` for a callback that issues `calls`. */
  method RunCallback(store: KafkaStore, calls: seq<StoreCall>) returns (r: Outcome)
    modifies store.producer
    ensures Relayed(store.producer.State(), r) == CallbackSpec(old(store.producer.State()), store.topic, calls)
  {
    var i := 0;
    r := Pass;
    while i < |calls|
      invariant 0 <= i <= |calls|
      invariant r == Pass
      invariant CallbackSpec(old(store.producer.State()), store.topic, calls)
        == CallbackSpec(store.producer.State(), store.topic, calls[i..])
    {
      assert calls[i..][1..] == calls[i + 1..];
      match calls[i] {
        case CallThrow(code, message) =>
          r := Fail(Thrown(code, message));
          return;
        case CallSave(x) =>
          r := store.Save(x);
        case CallInsert(x) =>
          r := store.Insert(x);
      }
      if r.Fail? {
        return;
      }
      i := i + 1;
    }
  }
}
