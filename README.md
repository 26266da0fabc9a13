# squid-kafka state store, modelled in Dafny

This project models the checkpointed indexer-state store of squid-kafka and proves properties of that model. The store is the class `KafkaWithTypORMDatabase` in `src/KafkaWithTypeORMDatabase.ts`, together with the Kafka-backed write handle `KafkaStore` that it gives to the processing callback (`src/KafkaStore.ts`).

The database keeps the indexer's progress in a `status` row with `id = 0`: `{height, hash, nonce}`. Next to it is a `hot_block` table. Each `transact` call does four things:

- it reads this state and checks that the hot blocks continue the status row;
- it checks the caller's `FinalTxInfo` against that state with four assertions;
- it runs the callback, which sends entities to Kafka;
- it advances the row with an update conditioned on the nonce.

The whole unit runs in a transaction and is retried up to three times when the store reports SQLSTATE `40001`.

## Layout

- `base.dfy` (module `Base`): the error kinds, their `code`, and the rows and states the tables hold.
- `json.dfy` (module `Json`): JSON values, and the bigint replacer of `stringifyWithBigInt` with its decimal round trip.
- `kafka.dfy` (module `Kafka`): the producer.
  - The producer keeps a log of the payloads of every `send` and a script of the replies its callbacks receive.
  - `SendSpec` is the pure specification of one call.
- `store.dfy` (module `Store`): the class `KafkaStore`, its pure specification (`SaveSpec`, `CallbackSpec`) and the callback runner.
- `sql.dfy` (module `Sql`): the `status` and `hot_block` tables as sequences, the effect of each SQL statement, and the class `Database`.
  - `Database` changes these tables in place and keeps the savepoint a rollback returns to.
- `invariants.dfy` (module `Invariants`): `assertChainContinuity` (a loop) and `assertStateInvariants`.
- `txspec.dfy` (module `TxSpec`): the protocol as functions of the tables, the producer and the store's answers:
  - the state read;
  - the init transaction and `sqlConnect`;
  - the guards;
  - one attempt, split into the unit of work and the end of its transaction;
  - the retry loop;
  - lemmas about all of these.
- `indexer.dfy` (module `Indexer`): the class `KafkaWithTypORMDatabase`. Each of its methods is proved to leave the database and the producer exactly as the matching `TxSpec` function says.
- `scenarios.dfy` (module `Scenarios`): concrete runs worked out from the model.

### How the environment is represented

- **Serialization failures.** A serialization failure is a per-attempt oracle, `Attempt(rival, fault)`. It says where in the transaction the store raises `40001`: on the first query, on the `UPDATE`, or on `COMMIT`.
- **Another writer.** `rival`, when set, is another process committing an advance of the status row between this attempt's read and its update, as under `READ COMMITTED`. That change is not undone by this attempt's rollback.
- **The retry loop.** It draws one `Attempt` per try; a used-up oracle means a quiet store.
- **The callback.** The callback is a script of store calls: `save`, `insert`, or throwing an error of its own. The calls run in order, and the first failure ends the callback.
- **Connecting.** `DataSource.initialize()` is an `Outcome` parameter of `connect`.

Some consequences of the code that its comments and names do not suggest, which the model keeps as written:

- **The race assertion is not retried.** It is raised by `assert.strictEqual` with code `ERR_ASSERTION` (`src/KafkaWithTypeORMDatabase.ts:121-125`), and the loop retries only code `'40001'` (line 84). So a lost race is surfaced at once (`TxSpec.RivalCausesRace`, `Scenarios.RivalIsNotRetried`), although it signals a concurrent writer just as a serialization failure does.
- **A stale caller fails at the first guard, with the race message.** This happens when another writer advanced before the read (`Scenarios.StaleCaller`). The message does not distinguish it from a race lost at the update.
- **Any row count other than 1 fails the update with the race message.** This includes 0 and 2 or more; the update itself has already been applied to every matching row, so the attempt's rollback is what undoes it.
- **A failed `DataSource.initialize()` leaves `ksCon` set.** It lies outside the `try` (line 39), so every later `connect` fails with 'already connected'. Only a failure of the init transaction clears the field.
- **Entity messages are not rolled back.** They are sent during the attempt, so a retried attempt sends its batches again (`TxSpec.SubmitOnlyAppends`, `Scenarios.CommitConflictResends`).
- **Init does not check the row count.** It uses the first id-0 row whatever their number (line 177); `ksGetState` demands exactly one.

For an `assert` without a message, node generates one around the asserted expression ("The expression evaluated to a falsy value: ..."). The model stands in for that message with the quoted expression alone (for example `"status.length == 1"`).

## Model

| member | source | states |
|---|---|---|
| Base.Retryable | src/KafkaWithTypeORMDatabase.ts:84 | Defines the retry test: the error's `code` is '40001' |
| Base.RetryableErrors | src/KafkaWithTypeORMDatabase.ts:84-88 | An error is retried iff it is a serialization conflict or carries code '40001' itself; no failed assertion is ever retried |
| Json.NatToDecimal | src/KafkaStore.ts:18 | The decimal digits of a natural number are non-empty, all digits, and start with '0' only for zero |
| Json.NatToDecimalValue | src/KafkaStore.ts:18 | The digits written for n denote n |
| Json.DecimalStringRoundTrip | src/KafkaStore.ts:18 | `bigint.toString()` loses nothing: the decimal string of any integer, negative ones included, parses back to the same integer |
| Json.DecimalString | src/KafkaStore.ts:18 | Defines `bigint.toString()`: a '-' for negative values, then the decimal digits |
| Json.ReplaceBigInts | src/KafkaStore.ts:16-19 | After the replacer no bigint remains anywhere in the value |
| Json.StringifyWithBigInt | src/KafkaStore.ts:16-20 | Defines `stringifyWithBigInt`: the serialization of the value after the replacer |
| Json.ReplaceKeepsOtherValues | src/KafkaStore.ts:16-19 | A value holding no bigint passes through the replacer unchanged, at every depth |
| Json.ReplaceIdempotent | src/KafkaStore.ts:16-19 | Replacing twice is the same as replacing once |
| Json.BigIntBecomesItsDecimal | src/KafkaStore.ts:17-18 | A bigint value is replaced by a string that reads back as the same integer |
| Json.ReplaceFieldwise | src/KafkaStore.ts:16-19 | In an object every property keeps its key and place; a bigint property becomes its decimal string, one holding no bigint is unchanged |
| Json.ReplaceElementwise | src/KafkaStore.ts:16-19 | In an array every element keeps its place; a bigint element becomes its decimal string, one holding no bigint is unchanged |
| Kafka.SendSpec | src/KafkaStore.ts:31-37 | One `send` appends exactly its payload array to the log, and its callback gets the next scripted reply |
| Kafka.Producer.constructor | src/KafkaWithTypeORMDatabase.ts:28-29 | A new producer has sent nothing |
| Kafka.Producer.Send | src/KafkaStore.ts:31-37 | The producer's new state and the callback's error are those `SendSpec` gives |
| Store.Items | src/KafkaStore.ts:23 | A single entity becomes a one-element list; a list stays itself |
| Store.SaveSpec | src/KafkaStore.ts:22-39 | Defines `save`: one send of the item messages to the topic, rejected with the producer's error |
| Store.CallbackSpec | src/KafkaWithTypeORMDatabase.ts:68-69 | Defines `await cb(store)`: the store calls in order, ending at the first failure |
| Store.ToMessages | src/KafkaStore.ts:25-28 | One message per item, in order; message i has key `items[i].id` and value the bigint-safe serialization of item i |
| Store.InsertIsSave | src/KafkaStore.ts:41-44 | `insert(x)` has exactly the effect of `save(x)` |
| Store.SaveShape | src/KafkaStore.ts:22-38 | A save appends exactly one send with a single entry for the store's topic, with one message per item keyed by its id, and rejects iff the producer reports an error |
| Store.CallbackAppendsBatches | src/KafkaWithTypeORMDatabase.ts:68-69 | A callback only appends to the producer log; with every reply a success it sends one batch per save or insert and succeeds iff it never throws |
| Store.KafkaStore.constructor | src/KafkaStore.ts:11-14 | The handle keeps the given producer and topic |
| Store.KafkaStore.Save | src/KafkaStore.ts:22-39 | Producer state and outcome are those of `SaveSpec`: one send of all items to the topic, rejected iff the callback gets an error |
| Store.KafkaStore.Insert | src/KafkaStore.ts:41-44 | Producer state and outcome are those of `save` on the normalised list |
| Store.KafkaStore.SaveMany | src/KafkaStore.ts:47-49 | Always fails with 'Method not implemented.' |
| Store.KafkaStore.GetFkSignature | src/KafkaStore.ts:51-53 | Always fails with 'Method not implemented.' |
| Store.KafkaStore.UpsertMany | src/KafkaStore.ts:55-57 | Always fails with 'Method not implemented.' |
| Store.KafkaStore.Upsert | src/KafkaStore.ts:59-63 | Always fails with 'Method not implemented.' |
| Store.KafkaStore.Remove | src/KafkaStore.ts:64-69 | Always fails with 'Method not implemented.', for both argument shapes |
| Store.KafkaStore.Count | src/KafkaStore.ts:70-72 | Always fails with 'Method not implemented.' |
| Store.KafkaStore.CountBy | src/KafkaStore.ts:73-75 | Always fails with 'Method not implemented.' |
| Store.KafkaStore.Find | src/KafkaStore.ts:76-78 | Always fails with 'Method not implemented.' |
| Store.KafkaStore.FindBy | src/KafkaStore.ts:79-81 | Always fails with 'Method not implemented.' |
| Store.KafkaStore.FindOne | src/KafkaStore.ts:82-84 | Always fails with 'Method not implemented.' |
| Store.KafkaStore.FindOneBy | src/KafkaStore.ts:85-87 | Always fails with 'Method not implemented.' |
| Store.KafkaStore.FindOneOrFail | src/KafkaStore.ts:88-90 | Always fails with 'Method not implemented.' |
| Store.KafkaStore.FindOneByOrFail | src/KafkaStore.ts:91-93 | Always fails with 'Method not implemented.' |
| Store.KafkaStore.Get | src/KafkaStore.ts:94-96 | Always fails with 'Method not implemented.' |
| Store.RunCallback | src/KafkaWithTypeORMDatabase.ts:68-69 | Running the callback's calls one by one leaves the producer and the outcome as `CallbackSpec` says: calls in order, stopping at the first failure |
| Sql.RowsWithIdZero | src/KafkaWithTypeORMDatabase.ts:96-98 | The query never returns more rows than the table holds |
| Sql.RowsWithIdZeroMembers | src/KafkaWithTypeORMDatabase.ts:96-98 | The rows selected are exactly the stored rows with id 0 |
| Sql.SortByHeight | src/KafkaWithTypeORMDatabase.ts:102-104 | `ORDER BY height` returns every hot block, no other, in ascending height |
| Sql.UpdateRows | src/KafkaWithTypeORMDatabase.ts:112-115 | The conditional update keeps the number of rows |
| Sql.RowsChanged | src/KafkaWithTypeORMDatabase.ts:112-117 | The reported row count never exceeds the number of rows |
| Sql.RowsChangedIffChanged | src/KafkaWithTypeORMDatabase.ts:112-117 | The update reports zero rows changed iff it leaves the table as it was |
| Sql.UpdateSingleRow | src/KafkaWithTypeORMDatabase.ts:113-125 | With one id-0 row, the update changes it iff its nonce is the expected one, and it then holds next.height, next.hash and nonce + 1 |
| Sql.Database.Begin | src/KafkaWithTypeORMDatabase.ts:82 | Starting the transaction records the current contents as the rollback target |
| Sql.Database.Finish | src/KafkaWithTypeORMDatabase.ts:82 | A failed unit rolls back; otherwise COMMIT, which on a serialization failure fails with it and rolls back as well |
| Sql.Database.SelectStatus | src/KafkaWithTypeORMDatabase.ts:96-98 | Returns the id-0 rows, or the serialization failure when the store raises one |
| Sql.Database.SelectHotBlocks | src/KafkaWithTypeORMDatabase.ts:102-104 | Returns the hot blocks sorted by height, as a permutation of the table |
| Sql.Database.UpdateStatus | src/KafkaWithTypeORMDatabase.ts:112-117 | Applies the conditional update and returns its row count; nothing else changes |
| Sql.Database.InsertSentinel | src/KafkaWithTypeORMDatabase.ts:169 | Appends the row (0, -1, '0x', nonce 0); nothing else changes |
| Sql.Database.ConcurrentAdvance | src/KafkaWithTypeORMDatabase.ts:119-120 | Another process's committed advance of the status row changes the tables and the rollback target alike |
| Invariants.Continuous | src/KafkaWithTypeORMDatabase.ts:192-197 | Defines the chain condition: each height one above its predecessor's, the first above the base |
| Invariants.StateInvariants | src/KafkaWithTypeORMDatabase.ts:181-190 | Defines `assertStateInvariants`: the safe-integer check first, then continuity |
| Invariants.ContinuousIffOffsets | src/KafkaWithTypeORMDatabase.ts:192-197 | The chain is continuous iff block i sits exactly i + 1 above the base |
| Invariants.AssertChainContinuity | src/KafkaWithTypeORMDatabase.ts:192-197 | Passes iff each block's height is its predecessor's plus one, starting from the base; hashes are not compared |
| Invariants.AssertStateInvariants | src/KafkaWithTypeORMDatabase.ts:181-190 | Returns the state itself iff its height is a safe integer and its hot blocks continue it; otherwise the first failed check |
| TxSpec.ReadState | src/KafkaWithTypeORMDatabase.ts:93-107 | Defines `ksGetState`: exactly one id-0 row, the ordered hot blocks, then the checks |
| TxSpec.InitUnit | src/KafkaWithTypeORMDatabase.ts:165-177 | Defines the body of `ksInitTransaction`: the sentinel inserted when no id-0 row exists, the first row checked |
| TxSpec.InitSpec | src/KafkaWithTypeORMDatabase.ts:42 | Defines the init transaction: its body, rolled back on any failure, the commit's included |
| TxSpec.ConnectSpec | src/KafkaWithTypeORMDatabase.ts:33-48 | Defines `sqlConnect`: 'already connected', then initialize outside the `try`, then the init transaction that clears the flag on failure |
| TxSpec.CheckGuards | src/KafkaWithTypeORMDatabase.ts:59-62 | Defines the four guards of `transact`, in source order |
| TxSpec.UpdateStatusSpec | src/KafkaWithTypeORMDatabase.ts:109-126 | Defines `ksUpdateStatus`: the conditional update, then the row-count assertion |
| TxSpec.TransactUnit | src/KafkaWithTypeORMDatabase.ts:55-72 | Defines the unit of work: read, guards, callback, rival writer, update |
| TxSpec.EndTransaction | src/KafkaWithTypeORMDatabase.ts:82 | Defines the end of `con.transaction`: rollback on failure, otherwise commit, which may itself fail with 40001 |
| TxSpec.AttemptSpec | src/KafkaWithTypeORMDatabase.ts:82 | Defines one attempt: the unit of work in its own transaction |
| TxSpec.SubmitSpec | src/KafkaWithTypeORMDatabase.ts:76-91 | Defines `ksSubmit`: 'not connected' at once, otherwise attempts while they fail with code '40001' and retries are left |
| TxSpec.ReadStateSucceedsIff | src/KafkaWithTypeORMDatabase.ts:93-107 | A read succeeds iff there is exactly one id-0 row, of safe height, continued by the ordered hot blocks; it then returns that row with those blocks |
| TxSpec.ReadStateTop | src/KafkaWithTypeORMDatabase.ts:102-106 | The top of a successful read is the whole hot_block table, whose blocks sit at heights height + 1, height + 2, … |
| TxSpec.InitOnEmptyStore | src/KafkaWithTypeORMDatabase.ts:165-177 | On an empty store init inserts the sentinel and returns {-1, '0x', 0, top: []} |
| TxSpec.InitInsertsOnlyWhenEmpty | src/KafkaWithTypeORMDatabase.ts:165-171 | Init leaves the hot blocks alone and inserts a row only when no id-0 row exists, and then only the sentinel |
| TxSpec.InitIdempotent | src/KafkaWithTypeORMDatabase.ts:165-177 | Init run again after a successful init inserts nothing and returns the same state |
| TxSpec.InitFailureRollsBack | src/KafkaWithTypeORMDatabase.ts:41-47 | A failed init transaction leaves the tables as they were |
| TxSpec.InitReadsState | src/KafkaWithTypeORMDatabase.ts:165-177 | With exactly one id-0 row, init returns and leaves exactly what the state read `ksGetState` gives, so its count, safe-height and continuity checks apply; with none, init succeeds iff the ordered hot blocks continue `{-1, '0x'}`, and then it has appended the sentinel and returns `{-1, '0x', 0, top}` |
| TxSpec.ConnectOnlyOnce | src/KafkaWithTypeORMDatabase.ts:33-34 | After a successful connect, connecting again fails with 'already connected' and changes nothing |
| TxSpec.ConnectFailure | src/KafkaWithTypeORMDatabase.ts:33-47 | A failed connect leaves the tables unchanged; the store stays connected iff it was already connected or the failure came from initialize |
| TxSpec.GuardsInOrder | src/KafkaWithTypeORMDatabase.ts:59-62 | The guards pass iff all four hold; otherwise the first guard that fails, in source order, reports its own message (the race message for the hash) |
| TxSpec.GuardFailureAborts | src/KafkaWithTypeORMDatabase.ts:55-62 | A failed guard aborts the attempt before the callback: nothing is sent and the tables are unchanged |
| TxSpec.UnitShape | src/KafkaWithTypeORMDatabase.ts:55-72 | The unit of work touches the producer only through its callback; its rollback target is the starting tables, or those tables advanced by the rival writer |
| TxSpec.FailedAttemptRollsBack | src/KafkaWithTypeORMDatabase.ts:82 | Without a rival writer a failed attempt leaves the tables exactly as they were |
| TxSpec.SuccessfulAttempt | src/KafkaWithTypeORMDatabase.ts:55-72 | A successful attempt read one row matching prevHead, ran the callback, and left that row as {next.height, next.hash, nonce + 1} |
| TxSpec.RivalCausesRace | src/KafkaWithTypeORMDatabase.ts:109-126 | If another writer advances the row after the read, the attempt fails with the race message and keeps the other writer's row |
| TxSpec.SameNonceAdvancesOnce | src/KafkaWithTypeORMDatabase.ts:112-125 | Of two updates with the same expected nonce, the first changes one row and the second changes none |
| TxSpec.NotConnectedFailsAtOnce | src/KafkaWithTypeORMDatabase.ts:80-81 | Without a connection nothing is attempted and 'not connected' is raised |
| TxSpec.SubmitStops | src/KafkaWithTypeORMDatabase.ts:76-91 | The loop makes between 1 and retries + 1 attempts and ends on success, on an error whose code is not '40001', or with the budget spent |
| TxSpec.OtherErrorsPropagate | src/KafkaWithTypeORMDatabase.ts:84-88 | An error whose code is not '40001' ends the loop after the attempt that raised it |
| TxSpec.AttemptOnlyAppends | src/KafkaWithTypeORMDatabase.ts:68-69 | An attempt only appends to the producer log, and only what its callback sent |
| TxSpec.SubmitOnlyAppends | src/KafkaWithTypeORMDatabase.ts:76-91 | Across all retries the producer log only grows: what a rolled-back attempt sent stays sent |
| TxSpec.ConflictingAttempt | src/KafkaWithTypeORMDatabase.ts:82-86 | An attempt whose store raises 40001 fails with that conflict and keeps the tables |
| TxSpec.BudgetExhausted | src/KafkaWithTypeORMDatabase.ts:76-91 | When every attempt raises 40001 the loop makes exactly retries + 1 attempts, surfaces the conflict and leaves the tables unchanged |
| TxSpec.SubmitSuccessAdvances | src/KafkaWithTypeORMDatabase.ts:76-91 | Without rival writers a successful submit moved the single row from prevHead to {next.height, next.hash, nonce + 1}; failed attempts left no trace |
| TxSpec.NonceCountsSteps | src/KafkaWithTypeORMDatabase.ts:53-73 | After N successful transacts without rival writers the nonce has grown by exactly N, whatever serialization failures their attempts met |
| Indexer.StatusSchemaOf | src/KafkaWithTypeORMDatabase.ts:24 | The schema is never empty: an absent or empty option falls back to 'squid_processor' |
| Indexer.IsolationLevelOf | src/KafkaWithTypeORMDatabase.ts:25 | The isolation level defaults to SERIALIZABLE |
| Indexer.KafkaWithTypORMDatabase.constructor | src/KafkaWithTypeORMDatabase.ts:20-30 | A new store keeps its options and is not connected |
| Indexer.KafkaWithTypORMDatabase.SqlConnect | src/KafkaWithTypeORMDatabase.ts:33-48 | Tables, result and connection flag are those `ConnectSpec` gives: 'already connected' when connected; otherwise init in its own transaction, the flag cleared again when it fails |
| Indexer.KafkaWithTypORMDatabase.Connect | src/KafkaWithTypeORMDatabase.ts:49-51 | The same effect as `sqlConnect` |
| Indexer.KafkaWithTypORMDatabase.InitTransaction | src/KafkaWithTypeORMDatabase.ts:165-177 | Tables and result are those of `InitUnit`: the sentinel inserted only when no id-0 row exists, and the first row checked |
| Indexer.KafkaWithTypORMDatabase.GetState | src/KafkaWithTypeORMDatabase.ts:93-107 | Returns exactly `ReadState` of the current tables |
| Indexer.KafkaWithTypORMDatabase.UpdateStatus | src/KafkaWithTypeORMDatabase.ts:109-126 | The tables, the rollback target and the outcome are those of `UpdateStatusSpec`; it fails with the race message unless exactly one row changed |
| Indexer.KafkaWithTypORMDatabase.TransactUnit | src/KafkaWithTypeORMDatabase.ts:55-72 | The unit of work leaves the tables, the rollback target, the producer and the outcome as `TxSpec.TransactUnit` says |
| Indexer.KafkaWithTypORMDatabase.RunTransaction | src/KafkaWithTypeORMDatabase.ts:80-82 | One transaction around the unit of work ends with the effect `AttemptSpec` gives |
| Indexer.KafkaWithTypORMDatabase.Submit | src/KafkaWithTypeORMDatabase.ts:76-91 | The retry loop ends with the tables, the producer, the outcome and the attempt count `SubmitSpec` gives for three retries |
| Indexer.KafkaWithTypORMDatabase.Transact | src/KafkaWithTypeORMDatabase.ts:53-73 | `transact` has the effect of `ksSubmit` on its unit of work |
| Scenarios.QuietStep | src/KafkaWithTypeORMDatabase.ts:53-73 | From {10, A, nonce 3}, one save moves the row to {11, B, nonce 4} after one attempt and one batch |
| Scenarios.BatchCarriesDecimal | src/KafkaStore.ts:16-28 | An entity's bigint reaches Kafka as the string of its digits, after the id |
| Scenarios.CommitConflictResends | src/KafkaWithTypeORMDatabase.ts:76-91 | A commit conflict rolls the tables back, but the retry sends the batch a second time |
| Scenarios.RivalIsNotRetried | src/KafkaWithTypeORMDatabase.ts:119-125 | A rival writer during the callback causes the race failure after one attempt, with the rival's row kept |
| Scenarios.StaleCaller | src/KafkaWithTypeORMDatabase.ts:59 | A caller whose prevHead is already stale fails at the first guard with the race message, sending nothing |

## Left out

- The DDL of `ksInitTransaction` (`CREATE SCHEMA/TABLE IF NOT EXISTS`, `ALTER TABLE ... ADD COLUMN`): the tables are taken to exist with every column. The primary keys they declare are not enforced either, so the status table may hold any rows.
- Schema-name escaping (`ksEscapedSchema`): the model has one schema. Its `assertNotNull` cannot fail inside a transaction, because `ksCon` is set there.
- The `DataSource` itself: `createOrmConfig`, the project directory and `process.cwd()`, `initialize()` (a parameter) and `destroy()` (its errors are ignored in the source, so it has no effect in the model).
- Isolation-level semantics: the level is kept as a configuration value. Its effect is what the oracle's faults and rival writers stand for.
- Real concurrency between processes: represented only by the rival's advance between read and update, and by serialization failures.
- The commented-out rollback of hot blocks inside `transact` (lines 63-67), which the source does not run.
- `console.log` calls.
- The text `JSON.stringify` produces: the serialization of the replaced value is left uninterpreted.
- Broker delivery, the kafka-node client and the construction of the client and producer from `kafkaClientOptions`: the producer is a log of payloads plus scripted replies.
- The query options that the stub Store methods accept and ignore.
- src/main.ts, src/sui-indexer.ts, kafkaClient.ts and kafkaClient.js: the processor wiring, network paging and consumer scripts.
- Integer widths: heights and nonces are unbounded. The `int4` columns and the safe-integer range of JavaScript numbers are not enforced beyond the explicit `Number.isSafeInteger` check.
- Indexer.KafkaWithTypORMDatabase.SqlConnect and Indexer.KafkaWithTypORMDatabase.Submit: after a failed `initialize()` the connection flag stays set, as in the source, but later attempts run against the tables as if the DataSource worked. What `con.transaction` does on a DataSource whose initialization failed is TypeORM behaviour and is not modelled.
- Callbacks are scripts of store calls. A callback that inspects the state or performs its own I/O is not modelled.
