/** `KafkaWithTypORMDatabase`: the database a processor runs against. Its state (the
    last processed block and a nonce) lives in the status table; the entities the
    processing callback saves go to a Kafka topic instead of the database. Every
    method is proved to behave as the matching function of module TxSpec says. */
module Indexer {
  import opened Base
  import opened Sql
  import opened Invariants
  import opened Kafka
  import opened Store
  import opened TxSpec

  /** The constructor options the model keeps. The Kafka client options and the project
      directory only serve to build the producer and the DataSource configuration. */
  datatype Options = Options(topic: string, stateSchema: Option<string>, isolationLevel: Option<IsolationLevel>)

  const DefaultStatusSchema := "squid_processor"

  /** `options?.stateSchema || 'squid_processor'`: an absent or empty name falls back. */
  function StatusSchemaOf(o: Options): (s: string)
    ensures s != ""
    ensures o.stateSchema.Some? && o.stateSchema.value != "" ==> s == o.stateSchema.value
    ensures (o.stateSchema.None? || o.stateSchema.value == "") ==> s == DefaultStatusSchema
  {
    if o.stateSchema.Some? && o.stateSchema.value != "" then o.stateSchema.value else DefaultStatusSchema
  }

  /** `options?.isolationLevel || 'SERIALIZABLE'`. */
  function IsolationLevelOf(o: Options): (l: IsolationLevel)
    ensures o.isolationLevel.Some? ==> l == o.isolationLevel.value
    ensures o.isolationLevel.None? ==> l == Serializable
  {
    if o.isolationLevel.Some? then o.isolationLevel.value else Serializable
  }

  class KafkaWithTypORMDatabase {
    const producer: Producer
    const topic: string
    const statusSchema: string
    const isolationLevel: IsolationLevel
    /** The database server the DataSource connects to. */
    const db: Database
    /** `ksCon != null`. */
    var connected: bool

    constructor (options: Options, producer: Producer, db: Database)
      ensures this.producer == producer && this.db == db && topic == options.topic
      ensures statusSchema == StatusSchemaOf(options) && isolationLevel == IsolationLevelOf(options)
      ensures !connected
    {
      this.producer := producer;
      this.db := db;
      topic := options.topic;
      statusSchema := StatusSchemaOf(options);
      isolationLevel := IsolationLevelOf(options);
      connected := false;
    }

    /** `sqlConnect()`: `initialize` is how `DataSource.initialize()` ends, `fault` where the
        init transaction meets a serialization failure. */
    method SqlConnect(initialize: Outcome, fault: Fault) returns (r: Result<DatabaseState>)
      requires db.savepoint.None?
      modifies this, db
      ensures Connection(db.Contents(), r, connected) == ConnectSpec(old(db.Contents()), old(connected), initialize, fault)
      ensures db.savepoint.None?
    {
      if connected {
        return Err(AssertFailed(AlreadyConnectedMsg));
      }
      connected := true;
      if initialize.Fail? {
        return Err(initialize.error);
      }
      db.Begin();
      r := InitTransaction(fault == ConflictOnRead);
      var done := db.Finish(if r.Ok? then Pass else Fail(r.error), fault == ConflictOnCommit);
      if done.Fail? {
        r := Err(done.error);
        connected := false;
      }
    }

    /** `connect()`. */
    method Connect(initialize: Outcome, fault: Fault) returns (r: Result<DatabaseState>)
      requires db.savepoint.None?
      modifies this, db
      ensures Connection(db.Contents(), r, connected) == ConnectSpec(old(db.Contents()), old(connected), initialize, fault)
      ensures db.savepoint.None?
    {
      r := SqlConnect(initialize, fault);
    }

    /** `ksInitTransaction(em)` inside an open transaction, from its first SELECT on. */
    method InitTransaction(conflict: bool) returns (r: Result<DatabaseState>)
      requires db.savepoint.Some?
      modifies db
      ensures Init(db.Contents(), r) == InitUnit(old(db.Contents()), conflict)
      ensures db.savepoint == old(db.savepoint)
    {
      var status := db.SelectStatus(conflict);
      if status.Err? {
        return Err(status.error);
      }
      var row := Sentinel;
      if |status.value| == 0 {
        db.InsertSentinel();
      } else {
        row := status.value[0];
      }
      var top := db.SelectHotBlocks();
      r := AssertStateInvariants(StateOf(row, top));
    }

    /** `ksGetState(em)`; `conflict` is the store raising a serialization failure on the first query. */
    method GetState(conflict: bool) returns (r: Result<DatabaseState>)
      ensures r == ReadState(db.Contents(), conflict)
    {
      var status := db.SelectStatus(conflict);
      if status.Err? {
        return Err(status.error);
      }
      if |status.value| != 1 {
        return Err(AssertFailed(StatusCountMsg));
      }
      var top := db.SelectHotBlocks();
      r := AssertStateInvariants(StateOf(status.value[0], top));
    }

    /** `ksUpdateStatus(em, nonce, next)` in a transaction that has written nothing yet. */
    method UpdateStatus(nonce: int, next: HashAndHeight, conflict: bool) returns (r: Outcome)
      requires db.savepoint == Some(db.Contents())
      modifies db
      ensures var u := UpdateStatusSpec(old(db.Contents()), producer.State(), nonce, next, conflict);
        db.Contents() == u.tables && db.savepoint == Some(u.savepoint) && r == u.outcome
    {
      if conflict {
        return Fail(SerializationConflict);
      }
      var rowsChanged := db.UpdateStatus(nonce, next);
      if rowsChanged != 1 {
        return Fail(AssertFailed(RaceMsg));
      }
      r := Pass;
    }

    /** The unit of work `transact` passes to `ksSubmit`, run in a freshly begun transaction;
        `a` says whether a rival writer commits while the callback runs and where the store
        raises a serialization failure. */
    method TransactUnit(info: FinalTxInfo, calls: seq<StoreCall>, a: Attempt) returns (r: Outcome)
      requires db.savepoint == Some(db.Contents())
      modifies db, producer
      ensures db.savepoint.Some?
      ensures Unit(db.Contents(), db.savepoint.value, producer.State(), r)
        == TxSpec.TransactUnit(old(db.Contents()), old(producer.State()), Step(topic, info, calls), a)
    {
      var state := GetState(a.fault == ConflictOnRead);
      if state.Err? {
        return Fail(state.error);
      }
      r := CheckGuards(state.value, info);
      if r.Fail? {
        return;
      }
      var store := new KafkaStore(producer, topic);
      r := RunCallback(store, calls);
      if r.Fail? {
        return;
      }
      if a.rival.Some? {
        db.ConcurrentAdvance(a.rival.value);
      }
      r := UpdateStatus(state.value.nonce, info.nextHead, a.fault == ConflictOnUpdate);
    }

    /** `con.transaction(isolationLevel, tx)` for the unit of work of `transact`. */
    method RunTransaction(info: FinalTxInfo, calls: seq<StoreCall>, a: Attempt) returns (r: Outcome)
      requires db.savepoint.None?
      modifies db, producer
      ensures Effect(db.Contents(), producer.State(), r)
        == AttemptSpec(old(db.Contents()), old(producer.State()), Step(topic, info, calls), a)
      ensures db.savepoint.None?
    {
      db.Begin();
      r := TransactUnit(info, calls, a);
      r := db.Finish(r, a.fault == ConflictOnCommit);
    }

    /** `ksSubmit(tx)`: the attempt is repeated while it fails with code '40001' and one of the
        three retries is left. `oracle` scripts the attempts in order; `attempts` counts them. */
    method Submit(info: FinalTxInfo, calls: seq<StoreCall>, oracle: seq<Attempt>) returns (r: Outcome, ghost attempts: nat)
      requires db.savepoint.None?
      modifies db, producer
      ensures Run(db.Contents(), producer.State(), r, attempts)
        == SubmitSpec(old(db.Contents()), old(producer.State()), connected, Step(topic, info, calls), oracle, Retries)
      ensures db.savepoint.None?
    {
      ghost var step := Step(topic, info, calls);
      ghost var total := SubmitSpec(db.Contents(), producer.State(), connected, step, oracle, Retries);
      var retries: nat := Retries;
      var pending := oracle;
      attempts := 0;
      while true
        invariant db.savepoint.None?
        invariant var rest := SubmitSpec(db.Contents(), producer.State(), connected, step, pending, retries);
          total == rest.(attempts := rest.attempts + attempts)
        decreases retries
      {
        if !connected {
          return Fail(AssertFailed(NotConnectedMsg)), attempts;
        }
        r := RunTransaction(info, calls, NextAttempt(pending));
        attempts := attempts + 1;
        if r.Pass? || !Retryable(r.error) || retries == 0 {
          return;
        }
        retries := retries - 1;
        pending := LaterAttempts(pending);
      }
    }

    /** `transact(info, cb)`: the callback `cb` is the script `calls`. */
    method Transact(info: FinalTxInfo, calls: seq<StoreCall>, oracle: seq<Attempt>) returns (r: Outcome, ghost attempts: nat)
      requires db.savepoint.None?
      modifies db, producer
      ensures Run(db.Contents(), producer.State(), r, attempts)
        == SubmitSpec(old(db.Contents()), old(producer.State()), connected, Step(topic, info, calls), oracle, Retries)
      ensures db.savepoint.None?
    {
      r, attempts := Submit(info, calls, oracle);
    }
  }
}
