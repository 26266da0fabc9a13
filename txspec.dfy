/** What the checkpointed state store of `KafkaWithTypORMDatabase` does, as functions of
    the tables, the producer and the store's answers: the state read, the init
    transaction, the guards of `transact`, one attempt of its unit of work, and the
    retry loop around it. The class in module Indexer is proved to behave exactly so. */
module TxSpec {
  import opened Base
  import opened Sql
  import opened Invariants
  import opened Kafka
  import opened Store

  /** Where, if anywhere, the store raises a serialization failure (SQLSTATE 40001) in one transaction. */
  datatype Fault = NoFault | ConflictOnRead | ConflictOnUpdate | ConflictOnCommit

  /** The oracle for one attempt: whether another writer commits an advance of the status
      row between this attempt's read and its update, and where the store raises 40001. */
  datatype Attempt = Attempt(rival: Option<HashAndHeight>, fault: Fault)

  /** The attempt assumed once the oracle is used up. */
  const Quiet := Attempt(None, NoFault)

  /** The inputs of one `transact` call: the topic of the write handle, the caller's
      FinalTxInfo and what its processing callback does. */
  datatype Step = Step(topic: string, info: FinalTxInfo, calls: seq<StoreCall>)

  function StateOf(row: StatusRow, top: seq<HashAndHeight>): DatabaseState
  {
    DatabaseState(row.height, row.hash, row.nonce, top)
  }

  function HeadOf(row: StatusRow): HashAndHeight
  {
    HashAndHeight(row.height, row.hash)
  }

  /** `ksGetState`: the single id-0 status row and the hot blocks ordered by height, checked. */
  function ReadState(t: Tables, conflict: bool): Result<DatabaseState>
  {
    if conflict then Err(SerializationConflict)
    else
      var rows := RowsWithIdZero(t.status);
      if |rows| != 1 then Err(AssertFailed(StatusCountMsg))
      else StateInvariants(StateOf(rows[0], SortByHeight(t.hotBlock)))
  }

  datatype Init = Init(tables: Tables, result: Result<DatabaseState>)

  /** The status table after `INSERT ... VALUES (0, -1, '0x')` when no id-0 row was found. */
  function InsertIfMissing(t: Tables): Tables
  {
    if RowsWithIdZero(t.status) == [] then t.(status := t.status + [Sentinel]) else t
  }

  /** The body of `ksInitTransaction`, before its transaction ends: the first id-0 row, or the
      sentinel it has just inserted, with the ordered hot blocks, checked. */
  function InitUnit(t: Tables, conflict: bool): Init
  {
    if conflict then Init(t, Err(SerializationConflict))
    else
      var rows := RowsWithIdZero(t.status);
      var row := if rows == [] then Sentinel else rows[0];
      var t1 := InsertIfMissing(t);
      Init(t1, StateInvariants(StateOf(row, SortByHeight(t1.hotBlock))))
  }

  /** `ksInitTransaction` in its own transaction: any failure, the commit's included, rolls back to t. */
  function InitSpec(t: Tables, fault: Fault): Init
  {
    var u := InitUnit(t, fault == ConflictOnRead);
    if u.result.Err? then Init(t, u.result)
    else if fault == ConflictOnCommit then Init(t, Err(SerializationConflict))
    else u
  }

  /** Where `sqlConnect` leaves the tables, what it returns, and whether `ksCon` is then set. */
  datatype Connection = Connection(tables: Tables, result: Result<DatabaseState>, connected: bool)

  /** `sqlConnect()` with `ksCon` set or not, and `initialize()` of the new DataSource ending
      with `initialize`. A failed initialize is not caught, so `ksCon` stays set; a failed
      init transaction is, and clears it again. */
  function ConnectSpec(t: Tables, connected: bool, initialize: Outcome, fault: Fault): Connection
  {
    if connected then Connection(t, Err(AssertFailed(AlreadyConnectedMsg)), true)
    else if initialize.Fail? then Connection(t, Err(initialize.error), true)
    else
      var i := InitSpec(t, fault);
      Connection(i.tables, i.result, i.result.Ok?)
  }

  /** The four assertions `transact` makes on the caller's FinalTxInfo, in source order. */
  function CheckGuards(state: DatabaseState, info: FinalTxInfo): Outcome
  {
    if state.hash != info.prevHead.hash then Fail(AssertFailed(RaceMsg))
    else if state.height != info.prevHead.height then Fail(AssertFailed(HeightMatchMsg))
    else if !(info.prevHead.height < info.nextHead.height) then Fail(AssertFailed(HeightIncreaseMsg))
    else if info.prevHead.hash == info.nextHead.hash then Fail(AssertFailed(HashChangeMsg))
    else Pass
  }

  /** Where a unit of work leaves an open transaction: the tables as it sees them, the
      contents a rollback returns to, the producer, and how the unit ended. */
  datatype Unit = Unit(tables: Tables, savepoint: Tables, broker: Broker, outcome: Outcome)

  /** `ksUpdateStatus(em, nonce, next)` in a transaction whose rollback target is t. The
      update is applied whatever it matches; the assertion on the row count then fails
      the unit unless exactly one row changed. */
  function UpdateStatusSpec(t: Tables, b: Broker, nonce: int, next: HashAndHeight, conflict: bool): Unit
  {
    if conflict then Unit(t, t, b, Fail(SerializationConflict))
    else
      var t2 := t.(status := UpdateRows(t.status, nonce, next));
      if RowsChanged(t.status, nonce) != 1 then Unit(t2, t, b, Fail(AssertFailed(RaceMsg)))
      else Unit(t2, t, b, Pass)
  }

  /** The unit of work `transact` hands to `ksSubmit`, run in a transaction begun at t. The
      producer is outside the transaction: what the callback sent stays sent. */
  function TransactUnit(t: Tables, b: Broker, step: Step, a: Attempt): Unit
  {
    var read := ReadState(t, a.fault == ConflictOnRead);
    if read.Err? then Unit(t, t, b, Fail(read.error))
    else
      var g := CheckGuards(read.value, step.info);
      if g.Fail? then Unit(t, t, b, g)
      else
        var cb := CallbackSpec(b, step.topic, step.calls);
        if cb.outcome.Fail? then Unit(t, t, cb.broker, cb.outcome)
        else
          var t1 := if a.rival.Some? then RivalAdvance(t, a.rival.value) else t;
          UpdateStatusSpec(t1, cb.broker, read.value.nonce, step.info.nextHead, a.fault == ConflictOnUpdate)
  }

  datatype Effect = Effect(tables: Tables, broker: Broker, outcome: Outcome)

  /** The end of the transaction: a failed unit rolls back; otherwise COMMIT, which rolls
      back as well when the store reports a serialization failure. */
  function EndTransaction(u: Unit, commitConflict: bool): Effect
  {
    if u.outcome.Fail? then Effect(u.savepoint, u.broker, u.outcome)
    else if commitConflict then Effect(u.savepoint, u.broker, Fail(SerializationConflict))
    else Effect(u.tables, u.broker, Pass)
  }

  /** One attempt of the retry loop: `con.transaction(isolationLevel, tx)`. */
  function AttemptSpec(t: Tables, b: Broker, step: Step, a: Attempt): Effect
  {
    EndTransaction(TransactUnit(t, b, step, a), a.fault == ConflictOnCommit)
  }

  function NextAttempt(oracle: seq<Attempt>): Attempt
  {
    if oracle == [] then Quiet else oracle[0]
  }

  function LaterAttempts(oracle: seq<Attempt>): seq<Attempt>
  {
    if oracle == [] then [] else oracle[1..]
  }

  /** `ksSubmit` allows this many retries after the first attempt. */
  const Retries := 3

  datatype Run = Run(tables: Tables, broker: Broker, outcome: Outcome, attempts: nat)

  /** `ksSubmit(tx)` with `retries` retries left: fail at once when not connected, otherwise
      run an attempt and retry it while it fails with code '40001' and a retry is left. */
  function SubmitSpec(t: Tables, b: Broker, connected: bool, step: Step, oracle: seq<Attempt>, retries: nat): Run
    decreases retries
  {
    if !connected then Run(t, b, Fail(AssertFailed(NotConnectedMsg)), 0)
    else
      var e := AttemptSpec(t, b, step, NextAttempt(oracle));
      if e.outcome.Fail? && Retryable(e.outcome.error) && retries != 0 then
        var rest := SubmitSpec(e.tables, e.broker, connected, step, LaterAttempts(oracle), retries - 1);
        rest.(attempts := rest.attempts + 1)
      else Run(e.tables, e.broker, e.outcome, 1)
  }

  // ---------------------------------------------------------------------------
  // The state read

  /** A read fails unless there is exactly one id-0 status row with a safe height whose hot
      blocks continue it; then it returns that row and the hot blocks in height order. */
  lemma ReadStateSucceedsIff(t: Tables)
    ensures var rows := RowsWithIdZero(t.status);
      ReadState(t, false).Ok? <==>
        && |rows| == 1
        && SafeInteger(rows[0].height)
        && Continuous(HeadOf(rows[0]), SortByHeight(t.hotBlock))
    ensures ReadState(t, false).Ok? ==>
      ReadState(t, false).value == StateOf(RowsWithIdZero(t.status)[0], SortByHeight(t.hotBlock))
    ensures ReadState(t, true) == Err(SerializationConflict)
  {
  }

  /** The hot blocks of a successful read are the whole hot_block table, ordered, and
      sit at the heights directly above the status row, one each. */
  lemma ReadStateTop(t: Tables)
    requires ReadState(t, false).Ok?
    ensures var s := ReadState(t, false).value;
      && multiset(s.top) == multiset(t.hotBlock)
      && (forall i :: 0 <= i < |s.top| ==> s.top[i].height == s.height + i + 1)
  {
    var s := ReadState(t, false).value;
    ContinuousIffOffsets(HashAndHeight(s.height, s.hash), s.top);
  }

  // ---------------------------------------------------------------------------
  // The init transaction

  /** On a fresh store init inserts the sentinel and yields `{-1, '0x', 0, top: []}`. */
  lemma InitOnEmptyStore()
    ensures InitSpec(Tables([], []), NoFault)
      == Init(Tables([Sentinel], []), Ok(DatabaseState(-1, "0x", 0, [])))
  {
    assert SortByHeight([]) == [];
  }

  /** Init inserts a row only when there is no id-0 status row, and then exactly the sentinel. */
  lemma InitInsertsOnlyWhenEmpty(t: Tables, fault: Fault)
    ensures var i := InitSpec(t, fault);
      && i.tables.hotBlock == t.hotBlock
      && (i.tables.status == t.status ||
          (RowsWithIdZero(t.status) == [] && i.result.Ok? && i.tables.status == t.status + [Sentinel]))
    ensures RowsWithIdZero(t.status) != [] ==> InitSpec(t, fault).tables == t
  {
  }

  /** Running init again after it succeeded inserts nothing and returns the same state. */
  lemma InitIdempotent(t: Tables)
    requires InitSpec(t, NoFault).result.Ok?
    ensures InitSpec(InitSpec(t, NoFault).tables, NoFault) == InitSpec(t, NoFault)
  {
    var rows := RowsWithIdZero(t.status);
    if rows == [] {
      RowsWithIdZeroAppend(t.status, Sentinel);
    }
  }

  /** A failed init leaves the tables as they were. */
  lemma InitFailureRollsBack(t: Tables, fault: Fault)
    requires InitSpec(t, fault).result.Err?
    ensures InitSpec(t, fault).tables == t
  {
  }

  /** Init reads the state as `ksGetState` does when there is exactly one id-0 row, so each
      check of the read applies to it; with no id-0 row it returns the just-inserted
      sentinel with the ordered hot blocks, and succeeds iff they continue the sentinel. */
  lemma InitReadsState(t: Tables)
    ensures |RowsWithIdZero(t.status)| == 1 ==> InitSpec(t, NoFault) == Init(t, ReadState(t, false))
    ensures RowsWithIdZero(t.status) == [] ==>
      var i := InitSpec(t, NoFault);
      && (i.result.Ok? <==> Continuous(HashAndHeight(-1, "0x"), SortByHeight(t.hotBlock)))
      && (i.result.Ok? ==>
            && i.tables.status == t.status + [Sentinel]
            && i.result.value == DatabaseState(-1, "0x", 0, SortByHeight(t.hotBlock)))
  {
  }

  /** Once connected, connecting again fails with 'already connected' and changes nothing. */
  lemma ConnectOnlyOnce(t: Tables, initialize: Outcome, fault: Fault, initialize': Outcome, fault': Fault)
    requires ConnectSpec(t, false, initialize, fault).result.Ok?
    ensures var c := ConnectSpec(t, false, initialize, fault);
      && c.connected
      && ConnectSpec(c.tables, c.connected, initialize', fault')
           == Connection(c.tables, Err(AssertFailed(AlreadyConnectedMsg)), true)
  {
  }

  /** A connect that fails leaves the tables as they were; it leaves the store connected
      exactly when the failure came from initialize rather than from the init transaction. */
  lemma ConnectFailure(t: Tables, connected: bool, initialize: Outcome, fault: Fault)
    requires ConnectSpec(t, connected, initialize, fault).result.Err?
    ensures var c := ConnectSpec(t, connected, initialize, fault);
      && c.tables == t
      && (c.connected <==> connected || initialize.Fail?)
  {
  }

  // ---------------------------------------------------------------------------
  // The guards of transact

  /** The guards pass iff all four hold; otherwise the first one that fails is reported. */
  lemma GuardsInOrder(state: DatabaseState, info: FinalTxInfo)
    ensures CheckGuards(state, info).Pass? <==>
      && state.hash == info.prevHead.hash
      && state.height == info.prevHead.height
      && info.prevHead.height < info.nextHead.height
      && info.prevHead.hash != info.nextHead.hash
    ensures state.hash != info.prevHead.hash ==> CheckGuards(state, info) == Fail(AssertFailed(RaceMsg))
    ensures state.hash == info.prevHead.hash && state.height != info.prevHead.height ==>
      CheckGuards(state, info) == Fail(AssertFailed(HeightMatchMsg))
    ensures (state.hash == info.prevHead.hash && state.height == info.prevHead.height
             && !(info.prevHead.height < info.nextHead.height)) ==>
      CheckGuards(state, info) == Fail(AssertFailed(HeightIncreaseMsg))
    ensures (state.hash == info.prevHead.hash && state.height == info.prevHead.height
             && info.prevHead.height < info.nextHead.height && info.prevHead.hash == info.nextHead.hash) ==>
      CheckGuards(state, info) == Fail(AssertFailed(HashChangeMsg))
  {
  }

  /** A failing guard aborts the attempt before the callback runs: nothing is sent and the tables are unchanged. */
  lemma GuardFailureAborts(t: Tables, b: Broker, step: Step, a: Attempt)
    requires ReadState(t, a.fault == ConflictOnRead).Ok?
    requires CheckGuards(ReadState(t, a.fault == ConflictOnRead).value, step.info).Fail?
    ensures AttemptSpec(t, b, step, a)
      == Effect(t, b, CheckGuards(ReadState(t, a.fault == ConflictOnRead).value, step.info))
  {
  }

  // ---------------------------------------------------------------------------
  // One attempt

  /** A unit of work touches the producer only through its callback, and its rollback
      target is the tables it began with, advanced by the rival writer when there is one. */
  lemma UnitShape(t: Tables, b: Broker, step: Step, a: Attempt)
    ensures var u := TransactUnit(t, b, step, a);
      && (u.broker == b || u.broker == CallbackSpec(b, step.topic, step.calls).broker)
      && (u.savepoint == t || (a.rival.Some? && u.savepoint == RivalAdvance(t, a.rival.value)))
  {
    var read := ReadState(t, a.fault == ConflictOnRead);
    if read.Ok? && CheckGuards(read.value, step.info).Pass? {
      var cb := CallbackSpec(b, step.topic, step.calls);
      if cb.outcome.Pass? {
        var t1 := if a.rival.Some? then RivalAdvance(t, a.rival.value) else t;
        var u := UpdateStatusSpec(t1, cb.broker, read.value.nonce, step.info.nextHead, a.fault == ConflictOnUpdate);
        assert TransactUnit(t, b, step, a) == u;
        assert u.broker == cb.broker && u.savepoint == t1;
      }
    }
  }

  /** Without a rival writer, a failed attempt leaves the tables exactly as they were. */
  lemma FailedAttemptRollsBack(t: Tables, b: Broker, step: Step, a: Attempt)
    requires a.rival.None?
    requires AttemptSpec(t, b, step, a).outcome.Fail?
    ensures AttemptSpec(t, b, step, a).tables == t
  {
    UnitShape(t, b, step, a);
  }

  /** A successful attempt read a single status row matching prevHead, ran the callback once
      and then replaced that row by {next.height, next.hash, nonce + 1}. */
  lemma SuccessfulAttempt(t: Tables, b: Broker, step: Step, a: Attempt)
    requires a.rival.None?
    requires AttemptSpec(t, b, step, a).outcome.Pass?
    ensures |RowsWithIdZero(t.status)| == 1
    ensures var row := RowsWithIdZero(t.status)[0];
      var e := AttemptSpec(t, b, step, a);
      && HeadOf(row) == step.info.prevHead
      && e.broker == CallbackSpec(b, step.topic, step.calls).broker
      && e.tables.hotBlock == t.hotBlock
      && RowsWithIdZero(e.tables.status) == [Advanced(row, step.info.nextHead)]
      && Advanced(row, step.info.nextHead)
           == StatusRow(0, step.info.nextHead.height, step.info.nextHead.hash, row.nonce + 1)
  {
    var read := ReadState(t, a.fault == ConflictOnRead);
    assert read.Ok?;
    assert CheckGuards(read.value, step.info).Pass?;
    var cb := CallbackSpec(b, step.topic, step.calls);
    assert cb.outcome.Pass?;
    var rows := RowsWithIdZero(t.status);
    assert |rows| == 1;
    var row := rows[0];
    assert read.value == StateOf(row, SortByHeight(t.hotBlock));
    var u := UpdateStatusSpec(t, cb.broker, row.nonce, step.info.nextHead, a.fault == ConflictOnUpdate);
    assert AttemptSpec(t, b, step, a) == EndTransaction(u, a.fault == ConflictOnCommit);
    RowsWithIdZeroMembers(t.status);
    assert row in rows;
    UpdateSingleRow(t.status, row.nonce, step.info.nextHead);
  }

  /** When another writer advances the row between the read and the update, the update
      changes nothing and the attempt fails with the race message, keeping the rival's row. */
  lemma RivalCausesRace(t: Tables, b: Broker, step: Step, next: HashAndHeight)
    requires ReadState(t, false).Ok?
    requires CheckGuards(ReadState(t, false).value, step.info).Pass?
    requires CallbackSpec(b, step.topic, step.calls).outcome.Pass?
    ensures AttemptSpec(t, b, step, Attempt(Some(next), NoFault))
      == Effect(RivalAdvance(t, next), CallbackSpec(b, step.topic, step.calls).broker, Fail(AssertFailed(RaceMsg)))
  {
    var rows := RowsWithIdZero(t.status);
    var row := rows[0];
    var read := ReadState(t, false);
    assert read.value == StateOf(row, SortByHeight(t.hotBlock));
    var cb := CallbackSpec(b, step.topic, step.calls);
    var t1 := RivalAdvance(t, next);
    assert t1.status == UpdateRows(t.status, row.nonce, next);
    var u := UpdateStatusSpec(t1, cb.broker, row.nonce, step.info.nextHead, false);
    assert AttemptSpec(t, b, step, Attempt(Some(next), NoFault)) == EndTransaction(u, false);
    UpdateSingleRow(t.status, row.nonce, next);
    var row1 := RowsWithIdZero(t1.status)[0];
    assert row1.nonce == row.nonce + 1;
    UpdateSingleRow(t1.status, row.nonce, step.info.nextHead);
  }

  /** Two conditional updates with the same expected nonce: the first changes the single row,
      the second changes nothing, so the second writer's `ksUpdateStatus` fails. */
  lemma SameNonceAdvancesOnce(rows: seq<StatusRow>, x: HashAndHeight, y: HashAndHeight)
    requires |RowsWithIdZero(rows)| == 1
    ensures var n := RowsWithIdZero(rows)[0].nonce;
      && RowsChanged(rows, n) == 1
      && RowsChanged(UpdateRows(rows, n, x), n) == 0
      && UpdateRows(UpdateRows(rows, n, x), n, y) == UpdateRows(rows, n, x)
  {
    var n := RowsWithIdZero(rows)[0].nonce;
    UpdateSingleRow(rows, n, x);
    UpdateSingleRow(UpdateRows(rows, n, x), n, y);
    RowsChangedIffChanged(UpdateRows(rows, n, x), n, y);
  }

  // ---------------------------------------------------------------------------
  // The retry loop

  /** Without a connection nothing is attempted and the assertion propagates. */
  lemma NotConnectedFailsAtOnce(t: Tables, b: Broker, step: Step, oracle: seq<Attempt>, retries: nat)
    ensures SubmitSpec(t, b, false, step, oracle, retries) == Run(t, b, Fail(AssertFailed(NotConnectedMsg)), 0)
  {
  }

  /** One turn of the retry loop, as an equation. */
  lemma SubmitTurn(t: Tables, b: Broker, step: Step, oracle: seq<Attempt>, retries: nat)
    ensures var e := AttemptSpec(t, b, step, NextAttempt(oracle));
      var rest := SubmitSpec(e.tables, e.broker, true, step, LaterAttempts(oracle), if retries == 0 then 0 else retries - 1);
      SubmitSpec(t, b, true, step, oracle, retries)
        == if e.outcome.Fail? && Retryable(e.outcome.error) && retries != 0
           then rest.(attempts := rest.attempts + 1)
           else Run(e.tables, e.broker, e.outcome, 1)
  {
  }

  /** At most retries + 1 attempts, and the loop ends on success, on an error whose code is
      not '40001', or with the budget spent. */
  lemma {:induction false} SubmitStops(t: Tables, b: Broker, step: Step, oracle: seq<Attempt>, retries: nat)
    ensures var r := SubmitSpec(t, b, true, step, oracle, retries);
      && 1 <= r.attempts <= retries + 1
      && (r.outcome.Pass? || !Retryable(r.outcome.error) || r.attempts == retries + 1)
    decreases retries
  {
    var e := AttemptSpec(t, b, step, NextAttempt(oracle));
    SubmitTurn(t, b, step, oracle, retries);
    if e.outcome.Fail? && Retryable(e.outcome.error) && retries != 0 {
      SubmitStops(e.tables, e.broker, step, LaterAttempts(oracle), retries - 1);
    }
  }

  /** An error whose code is not '40001' ends the loop after the attempt that raised it. */
  lemma OtherErrorsPropagate(t: Tables, b: Broker, step: Step, oracle: seq<Attempt>, retries: nat)
    requires AttemptSpec(t, b, step, NextAttempt(oracle)).outcome.Fail?
    requires !Retryable(AttemptSpec(t, b, step, NextAttempt(oracle)).outcome.error)
    ensures var e := AttemptSpec(t, b, step, NextAttempt(oracle));
      SubmitSpec(t, b, true, step, oracle, retries) == Run(e.tables, e.broker, e.outcome, 1)
  {
  }

  /** An attempt's rollback does not reach the producer: the log only grows, and it grows
      exactly when the callback ran. */
  lemma AttemptOnlyAppends(t: Tables, b: Broker, step: Step, a: Attempt)
    ensures var e := AttemptSpec(t, b, step, a);
      |b.sent| <= |e.broker.sent| && e.broker.sent[..|b.sent|] == b.sent
    ensures var e := AttemptSpec(t, b, step, a);
      e.broker == b || e.broker == CallbackSpec(b, step.topic, step.calls).broker
  {
    CallbackAppendsBatches(b, step.topic, step.calls);
    UnitShape(t, b, step, a);
    assert AttemptSpec(t, b, step, a).broker == TransactUnit(t, b, step, a).broker;
  }

  /** Across all attempts of `ksSubmit` the producer's log only grows: what a failed attempt
      sent stays sent, and a retried attempt sends its batches again. */
  lemma {:induction false} SubmitOnlyAppends(t: Tables, b: Broker, connected: bool, step: Step, oracle: seq<Attempt>, retries: nat)
    ensures var r := SubmitSpec(t, b, connected, step, oracle, retries);
      |b.sent| <= |r.broker.sent| && r.broker.sent[..|b.sent|] == b.sent
    decreases retries
  {
    if connected {
      var e := AttemptSpec(t, b, step, NextAttempt(oracle));
      AttemptOnlyAppends(t, b, step, NextAttempt(oracle));
      if e.outcome.Fail? && Retryable(e.outcome.error) && retries != 0 {
        SubmitOnlyAppends(e.tables, e.broker, connected, step, LaterAttempts(oracle), retries - 1);
        var r := SubmitSpec(e.tables, e.broker, connected, step, LaterAttempts(oracle), retries - 1);
        assert r.broker.sent[..|b.sent|] == r.broker.sent[..|e.broker.sent|][..|b.sent|];
      }
    }
  }

  /** Every scripted attempt raises a serialization failure somewhere and has no rival writer. */
  predicate AllConflicting(oracle: seq<Attempt>)
  {
    forall i :: 0 <= i < |oracle| ==> oracle[i].rival.None? && oracle[i].fault != NoFault
  }

  /** The producer accepts everything and the callback only saves and inserts. */
  predicate CallbackCannotFail(b: Broker, calls: seq<StoreCall>)
  {
    && (forall i :: 0 <= i < |b.replies| ==> b.replies[i].None?)
    && (forall i :: 0 <= i < |calls| ==> !calls[i].CallThrow?)
  }

  /** An attempt without a rival whose store raises 40001 somewhere fails with that conflict
      and keeps the tables; the callback, if it ran, leaves the producer accepting everything. */
  lemma ConflictingAttempt(t: Tables, b: Broker, step: Step, a: Attempt)
    requires a.rival.None? && a.fault != NoFault
    requires CallbackCannotFail(b, step.calls)
    requires ReadState(t, false).Ok? && CheckGuards(ReadState(t, false).value, step.info).Pass?
    ensures var e := AttemptSpec(t, b, step, a);
      && e.tables == t
      && e.outcome == Fail(SerializationConflict)
      && CallbackCannotFail(e.broker, step.calls)
  {
    CallbackAppendsBatches(b, step.topic, step.calls);
    var cb := CallbackSpec(b, step.topic, step.calls);
    assert cb.outcome.Pass?;
    if a.fault != ConflictOnRead {
      var s := ReadState(t, false).value;
      assert ReadState(t, a.fault == ConflictOnRead) == Ok(s);
      UpdateSingleRow(t.status, s.nonce, step.info.nextHead);
      assert AttemptSpec(t, b, step, a) == Effect(t, cb.broker, Fail(SerializationConflict));
    }
  }

  /** When every attempt raises a serialization failure, the loop makes exactly retries + 1
      attempts, surfaces the conflict and leaves the tables as they were. */
  lemma {:induction false} BudgetExhausted(t: Tables, b: Broker, step: Step, oracle: seq<Attempt>, retries: nat)
    requires |oracle| > retries
    requires AllConflicting(oracle)
    requires CallbackCannotFail(b, step.calls)
    requires ReadState(t, false).Ok? && CheckGuards(ReadState(t, false).value, step.info).Pass?
    ensures var r := SubmitSpec(t, b, true, step, oracle, retries);
      && r.attempts == retries + 1
      && r.outcome == Fail(SerializationConflict)
      && r.tables == t
    decreases retries
  {
    var a := oracle[0];
    assert NextAttempt(oracle) == a && LaterAttempts(oracle) == oracle[1..];
    assert a.rival.None? && a.fault != NoFault;
    ConflictingAttempt(t, b, step, a);
    var e := AttemptSpec(t, b, step, a);
    SubmitTurn(t, b, step, oracle, retries);
    if retries != 0 {
      assert AllConflicting(oracle[1..]) by {
        assert forall i :: 0 <= i < |oracle[1..]| ==> oracle[1..][i] == oracle[i + 1];
      }
      BudgetExhausted(e.tables, e.broker, step, oracle[1..], retries - 1);
    }
  }

  /** Without rival writers, a successful submit moved the single status row from prevHead to
      {next.height, next.hash, nonce + 1}: earlier failed attempts left no trace in the tables. */
  lemma {:induction false} SubmitSuccessAdvances(t: Tables, b: Broker, step: Step, oracle: seq<Attempt>, retries: nat)
    requires forall i :: 0 <= i < |oracle| ==> oracle[i].rival.None?
    requires SubmitSpec(t, b, true, step, oracle, retries).outcome.Pass?
    ensures |RowsWithIdZero(t.status)| == 1
    ensures var row := RowsWithIdZero(t.status)[0];
      var r := SubmitSpec(t, b, true, step, oracle, retries);
      && HeadOf(row) == step.info.prevHead
      && r.tables.hotBlock == t.hotBlock
      && RowsWithIdZero(r.tables.status) == [StatusRow(0, step.info.nextHead.height, step.info.nextHead.hash, row.nonce + 1)]
    decreases retries
  {
    var a := NextAttempt(oracle);
    assert a.rival.None? by {
      if oracle != [] { assert oracle[0] == a; }
    }
    var e := AttemptSpec(t, b, step, a);
    if e.outcome.Fail? {
      FailedAttemptRollsBack(t, b, step, a);
      var later := LaterAttempts(oracle);
      assert forall i :: 0 <= i < |later| ==> later[i].rival.None? by {
        if oracle != [] {
          assert forall i :: 0 <= i < |later| ==> later[i] == oracle[i + 1];
        }
      }
      SubmitSuccessAdvances(t, e.broker, step, later, retries - 1);
    } else {
      SuccessfulAttempt(t, b, step, a);
    }
  }

  // ---------------------------------------------------------------------------
  // Several steps in a row

  /** One `transact` call of a run: its inputs and the store's answers to its attempts. */
  datatype Call = Call(step: Step, oracle: seq<Attempt>)

  /** `transact` called once per call in order, each with three retries, stopping at the first failure. */
  function Drive(t: Tables, b: Broker, calls: seq<Call>): Effect
    decreases |calls|
  {
    if calls == [] then Effect(t, b, Pass)
    else
      var r := SubmitSpec(t, b, true, calls[0].step, calls[0].oracle, Retries);
      if r.outcome.Fail? then Effect(r.tables, r.broker, r.outcome)
      else Drive(r.tables, r.broker, calls[1..])
  }

  /** No attempt of any call meets a rival writer; serialization failures may occur anywhere. */
  predicate RivalFree(calls: seq<Call>)
  {
    forall i, j :: 0 <= i < |calls| && 0 <= j < |calls[i].oracle| ==> calls[i].oracle[j].rival.None?
  }

  /** After N successful `transact` calls the nonce of the status row has grown by exactly N,
      however many of their attempts were rolled back by serialization failures. */
  lemma {:induction false} NonceCountsSteps(t: Tables, b: Broker, calls: seq<Call>)
    requires RivalFree(calls)
    requires Drive(t, b, calls).outcome.Pass?
    requires |RowsWithIdZero(t.status)| == 1
    ensures |RowsWithIdZero(Drive(t, b, calls).tables.status)| == 1
    ensures RowsWithIdZero(Drive(t, b, calls).tables.status)[0].nonce == RowsWithIdZero(t.status)[0].nonce + |calls|
    decreases |calls|
  {
    if calls != [] {
      var c := calls[0];
      assert forall j :: 0 <= j < |c.oracle| ==> c.oracle[j].rival.None?;
      var r := SubmitSpec(t, b, true, c.step, c.oracle, Retries);
      SubmitSuccessAdvances(t, b, c.step, c.oracle, Retries);
      assert RivalFree(calls[1..]) by {
        assert forall i :: 0 <= i < |calls[1..]| ==> calls[1..][i] == calls[i + 1];
      }
      NonceCountsSteps(r.tables, r.broker, calls[1..]);
    }
  }
}
