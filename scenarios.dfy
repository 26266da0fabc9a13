/** Concrete runs of `transact`, worked out from the model. */
module Scenarios {
  import opened Base
  import opened Json
  import opened Kafka
  import opened Store
  import opened Sql
  import opened TxSpec

  const Before := Tables([StatusRow(0, 10, "A", 3)], [])
  const Info := FinalTxInfo(HashAndHeight(10, "A"), HashAndHeight(11, "B"))
  const Transfer := Entity("t1", [Field("amount", BigInt(5))])
  const OneSave := Step("transfers", Info, [CallSave(One(Transfer))])
  const Batch := [ProduceRequest("transfers", [Message("t1", StringifyWithBigInt(EntityValue(Transfer)))])]

  /** The callback's one save sends exactly `Batch` and succeeds when the producer accepts it. */
  lemma SaveSendsBatch(sent: seq<seq<ProduceRequest>>)
    ensures CallbackSpec(Broker(sent, []), "transfers", OneSave.calls) == Relayed(Broker(sent + [Batch], []), Pass)
  {
    assert [Transfer][1..] == [];
    assert ToMessages([Transfer]) == [ToMessage(Transfer)];
    assert SaveRequest("transfers", One(Transfer)) == Batch;
    assert OneSave.calls[1..] == [];
  }

  const After := Tables([StatusRow(0, 11, "B", 4)], [])

  /** The read at 10/A succeeds with no hot blocks and the guards for 10/A -> 11/B pass. */
  lemma ReadBefore()
    ensures ReadState(Before, false) == Ok(DatabaseState(10, "A", 3, []))
    ensures CheckGuards(DatabaseState(10, "A", 3, []), Info) == Pass
  {
    assert RowsWithIdZero(Before.status) == [StatusRow(0, 10, "A", 3)];
    assert SortByHeight([]) == [];
  }

  /** Without a rival or a conflict before the commit, the unit sends the batch and advances the row. */
  lemma UnitBefore(sent: seq<seq<ProduceRequest>>, a: Attempt)
    requires a.rival.None? && (a.fault == NoFault || a.fault == ConflictOnCommit)
    ensures TransactUnit(Before, Broker(sent, []), OneSave, a) == Unit(After, Before, Broker(sent + [Batch], []), Pass)
  {
    ReadBefore();
    SaveSendsBatch(sent);
    assert RowsChanged(Before.status, 3) == 1;
    assert UpdateRows(Before.status, 3, HashAndHeight(11, "B")) == After.status;
  }

  /** A quiet store: one attempt sends the batch and moves the head from 10/A to 11/B. */
  lemma QuietStep()
    ensures SubmitSpec(Before, Broker([], []), true, OneSave, [], Retries)
      == Run(After, Broker([Batch], []), Pass, 1)
  {
    UnitBefore([], Quiet);
    assert AttemptSpec(Before, Broker([], []), OneSave, Quiet) == Effect(After, Broker([Batch], []), Pass);
    SubmitTurn(Before, Broker([], []), OneSave, [], Retries);
  }

  /** The amount, a BigInt, reaches Kafka as the string of its digits. */
  lemma BatchCarriesDecimal()
    ensures StringifyWithBigInt(EntityValue(Transfer))
      == JsonText(Obj([Field("id", Str("t1")), Field("amount", Str("5"))]))
  {
    var fs := [Field("id", Str("t1")), Field("amount", BigInt(5))];
    assert EntityValue(Transfer) == Obj(fs);
    var r := ReplaceBigInts(Obj(fs));
    assert |r.fields| == 2;
    assert ReplaceBigInts(fs[0].value) == Str("t1");
    assert DecimalString(5) == "5";
    assert ReplaceBigInts(fs[1].value) == Str("5");
    assert r.fields[0] == Field("id", Str("t1"));
    assert r.fields[1] == Field("amount", Str("5"));
    assert r.fields == [Field("id", Str("t1")), Field("amount", Str("5"))];
  }

  /** The retry after the conflict, with two retries left, sends the batch a second time and commits. */
  lemma RetryAfterConflict()
    ensures SubmitSpec(Before, Broker([Batch], []), true, OneSave, [], Retries - 1)
      == Run(After, Broker([Batch, Batch], []), Pass, 1)
  {
    UnitBefore([Batch], Quiet);
    assert [Batch] + [Batch] == [Batch, Batch];
    assert AttemptSpec(Before, Broker([Batch], []), OneSave, Quiet) == Effect(After, Broker([Batch, Batch], []), Pass);
    SubmitTurn(Before, Broker([Batch], []), OneSave, [], Retries - 1);
  }

  /** A commit conflict rolls the tables back but not Kafka: the retry sends the batch again. */
  lemma CommitConflictResends()
    ensures SubmitSpec(Before, Broker([], []), true, OneSave, [Attempt(None, ConflictOnCommit)], Retries)
      == Run(After, Broker([Batch, Batch], []), Pass, 2)
  {
    var oracle := [Attempt(None, ConflictOnCommit)];
    UnitBefore([], oracle[0]);
    var e := AttemptSpec(Before, Broker([], []), OneSave, oracle[0]);
    assert e == Effect(Before, Broker([Batch], []), Fail(SerializationConflict));
    assert NextAttempt(oracle) == oracle[0] && LaterAttempts(oracle) == [];
    SubmitTurn(Before, Broker([], []), OneSave, oracle, Retries);
    RetryAfterConflict();
  }

  /** Another writer advancing the row to 11/C during the callback: the update matches no
      row, the race assertion fails, and as its code is not '40001' it is not retried. */
  lemma RivalIsNotRetried()
    ensures SubmitSpec(Before, Broker([], []), true, OneSave, [Attempt(Some(HashAndHeight(11, "C")), NoFault)], Retries)
      == Run(Tables([StatusRow(0, 11, "C", 4)], []), Broker([Batch], []), Fail(AssertFailed(RaceMsg)), 1)
  {
    var a := Attempt(Some(HashAndHeight(11, "C")), NoFault);
    ReadBefore();
    SaveSendsBatch([]);
    var t1 := RivalAdvance(Before, HashAndHeight(11, "C"));
    assert RowsWithIdZero(Before.status) == Before.status;
    assert t1 == Tables([StatusRow(0, 11, "C", 4)], []);
    assert RowsChanged(t1.status, 3) == 0;
    assert UpdateRows(t1.status, 3, HashAndHeight(11, "B")) == t1.status;
    assert TransactUnit(Before, Broker([], []), OneSave, a) == Unit(t1, t1, Broker([Batch], []), Fail(AssertFailed(RaceMsg)));
    assert AttemptSpec(Before, Broker([], []), OneSave, a) == Effect(t1, Broker([Batch], []), Fail(AssertFailed(RaceMsg)));
    SubmitTurn(Before, Broker([], []), OneSave, [a], Retries);
  }

  /** A stale caller: another writer already moved the row to 11/C with nonce 4 before
      this call read it. The first guard fails with the race message before the callback
      runs, nothing is sent and the tables are as the other writer left them. */
  lemma StaleCaller()
    ensures var t := Tables([StatusRow(0, 11, "C", 4)], []);
      SubmitSpec(t, Broker([], []), true, OneSave, [], Retries)
        == Run(t, Broker([], []), Fail(AssertFailed(RaceMsg)), 1)
  {
    var t := Tables([StatusRow(0, 11, "C", 4)], []);
    assert RowsWithIdZero(t.status) == t.status;
    assert SortByHeight([]) == [];
    assert ReadState(t, false) == Ok(DatabaseState(11, "C", 4, []));
    assert AttemptSpec(t, Broker([], []), OneSave, Quiet) == Effect(t, Broker([], []), Fail(AssertFailed(RaceMsg)));
    SubmitTurn(t, Broker([], []), OneSave, [], Retries);
  }
}
