# SOLSniffer core, modelled in Dafny

SOLSniffer watches the Solana chain for token transfers to monitored wallets and stores
the matching transfers in MongoDB. This project models the core of that service and
proves properties about the model:

- **Token transaction processor** (`token_transaction_processor.dfy`). It validates a
  fetched transaction and takes its hash (the lower-case hex of the first signature),
  source and destination by position. It then calls the repository's `Save` once for
  every pre-token balance whose amount parses, whose mint is monitored (or is the
  `"NativeSOL"` sentinel), and whose destination is a monitored wallet. The repository is
  the ghost log `saved`.
- **Hex encoding** of the signature (`hex.dfy`), with its round trip.
- **Backfill engine** (`backfill_transaction.dfy`). It reads the chain height and the
  stored checkpoint, then splits the missing blocks into chunks of `ChunkSize`. Every
  block goes through up to three attempts of `processBlock`. Each attempt fetches the
  block, hands every transaction to the processor, then overwrites the checkpoint. The
  ghost log `attempts` records every `processBlock` call. The processor's `received` log
  records what it was handed.
- **Retry primitive** (`retry.dfy`): the `With*` option setters, `getDelay` and the
  bounded `Retry` loop with context cancellation during waits.
- **Retry presets** (`retry_presets.dfy`): `DefaultRetryConfig`, `DatabaseRetryConfig`,
  `WebSocketRetryConfig`.
- **Configuration validation** (`configs.dfy`): `validateConfig`'s ordered
  required-field checks.
- **Legacy monitor** (`legacy_main.dfy`): the root `main.go` filter, which accepts a
  transaction when either condition holds. Also the branching of `processTransaction`
  and the record `storeTransaction` inserts, including the panic when that record
  indexes an empty slice.
- **Subscription actions** (`enums.dfy`) and **deployment environments**
  (`environment.dfy`).

`wrappers.dfy` holds the `Option` type used for Go's nil.

The model follows the code wherever the code and its documentation differ:

- The backfill checkpoint is an overwriting upsert, not a maximum.
- The hash is hex, not base58.
- `IsStagingCanary` compares with `"canary"`.
- The database preset's backoff is linear, whatever its comment says.

External effects are parameters or oracles:

- the RPC answers (`Chain`, `Fetched`, the chain height);
- the metadata store's read and write failures;
- the insert error;
- the retried operation's outcome per call and the context's state per wait;
- whether an amount string parses as a number.

## Model

| member | source | states |
|---|---|---|
| TokenTransactionProcessor.BuildTokenSet | internal/services/tokenTransactionProcessor/token_transaction_processsor.go:22-31 | the monitored mint set holds exactly the `"NativeSOL"` sentinel and the configured tokens |
| TokenTransactionProcessor.BuildWalletSet | internal/services/tokenTransactionProcessor/token_transaction_processsor.go:33-36 | the monitored wallet set holds exactly the configured wallets |
| TokenTransactionProcessor.Service.constructor | internal/services/tokenTransactionProcessor/token_transaction_processsor.go:21-43 | `New` stores those two sets; nothing has been saved yet; the service's per-transaction saves are those of the specification `Process` (`Linked`) |
| TokenTransactionProcessor.Service.ProcessTransaction | internal/services/tokenTransactionProcessor/token_transaction_processsor.go:45-96 | the returned error and the records appended to `saved` are those of the specification `Process`; the transaction is appended to `received` |
| TokenTransactionProcessor.SavesOfIsSaves | internal/services/tokenTransactionProcessor/token_transaction_processsor.go:45-96 | a service built by `New`, handed any transactions in turn, saves exactly what the specification `Saves` prescribes for them |
| TokenTransactionProcessor.SavesExactly | internal/services/tokenTransactionProcessor/token_transaction_processsor.go:45-93 | over any sequence of transactions, a record is saved iff one of them has a signature and two accounts and a balance entry that passes both filters and yields that record |
| TokenTransactionProcessor.SavesAppend | internal/services/tokenTransactionProcessor/token_transaction_processsor.go:45-96 | transactions are handled independently: the saves for `a + b` are those for `a` followed by those for `b` |
| TokenTransactionProcessor.ProcessShape | internal/services/tokenTransactionProcessor/token_transaction_processsor.go:46-62 | no signatures gives an error and no save, checked before the account count; fewer than two accounts gives an error and no save; otherwise nil; every record has hash = hex of signature 0 (twice its byte length), source = account 0, destination = account 1; empty balances give no save |
| TokenTransactionProcessor.ForwardedExactly | internal/services/tokenTransactionProcessor/token_transaction_processsor.go:64-93 | a record is saved iff some balance entry parses, has a passing mint and a monitored destination, and the record is built from that entry; never more saves than entries |
| TokenTransactionProcessor.ForwardedAppend | internal/services/tokenTransactionProcessor/token_transaction_processsor.go:64-93 | entries are handled independently and in list order: the saves for `a + b` are those for `a` followed by those for `b` |
| TokenTransactionProcessor.ForwardedSingle | internal/services/tokenTransactionProcessor/token_transaction_processsor.go:64-86 | one entry yields its record exactly when it is selected, else nothing, so a parse failure skips only that entry |
| TokenTransactionProcessor.UnmonitoredDestinationSavesNothing | internal/services/tokenTransactionProcessor/token_transaction_processsor.go:81-84 | a destination outside the wallet set yields no save for any balance list |
| TokenTransactionProcessor.SentinelTestRedundant | internal/services/tokenTransactionProcessor/token_transaction_processsor.go:75-76 | for a set built by `New`, the `isNativeSOL ||` test equals plain membership |
| Hex.Encode | internal/services/tokenTransactionProcessor/token_transaction_processsor.go:50 | the hash has two lower-case hex digits per signature byte |
| Hex.DecodeEncode | internal/services/tokenTransactionProcessor/token_transaction_processsor.go:50 | decoding the hash gives back the signature bytes |
| Hex.EncodeInjective | internal/services/tokenTransactionProcessor/token_transaction_processsor.go:50 | distinct first signatures get distinct hashes |
| BackfillTransaction.CalculateEndBlock | internal/services/backfillTransaction/backfill_transaction.go:75-81 | the end is min(start + ChunkSize - 1, currentBlock); with ChunkSize >= 1 and start <= currentBlock it lies in [start, currentBlock] |
| BackfillTransaction.ChunksPartition | internal/services/backfillTransaction/backfill_transaction.go:50-51 | with ChunkSize >= 1 the scheduled chunks are empty iff start > currentBlock; the first starts at start and the last ends at currentBlock; each starts right after the previous ends; each holds 1 to ChunkSize blocks |
| BackfillTransaction.Service.constructor | internal/services/backfillTransaction/backfill_transaction.go:24-31 | `New` stores the chain client, the checkpoint store, the processor and the configuration (`ChunkSize`, `MaxConcurrency`); the per-block outcomes are those of the block specification |
| BackfillTransaction.Service.GetLastProcessedBlock | internal/repositories/transaction/backfill_transaction.go:22-34 | a failing read is an error; a missing checkpoint document reads as 0; otherwise the stored height |
| BackfillTransaction.Service.UpdateLastProcessedBlock | internal/repositories/transaction/backfill_transaction.go:37-49 | an upsert that overwrites the checkpoint with the given height (no monotonicity); a failing write leaves it unchanged |
| BackfillTransaction.Service.ProcessBlock | internal/services/backfillTransaction/backfill_transaction.go:110-150 | a failed fetch returns an error and touches neither the checkpoint nor the processor; otherwise every transaction of the block is converted and handed over in order, whatever the processor returns; the records saved are the processor's saves for exactly those transactions; only then is the checkpoint set to the block; a write failure fails the attempt |
| BackfillTransaction.Service.ProcessTransactions | internal/services/backfillTransaction/backfill_transaction.go:127-141 | every transaction of the block is converted and handed to the processor in block order, whatever it returns; `saved` grows by the saves of exactly those transactions |
| BackfillTransaction.Service.ProcessBlockWithRetry | internal/services/backfillTransaction/backfill_transaction.go:90-105 | the attempts at a block are those the block specification prescribes: 1, 2, ... up to the first success or the third; the block ends processed iff its last attempt succeeded; the processor receives the transactions of every fetched attempt, and `saved` grows by exactly their saves |
| BackfillTransaction.Service.ProcessBlockRange | internal/services/backfillTransaction/backfill_transaction.go:84-108 | every block of the chunk in ascending order: the attempt log, the processor's inputs and the saved records are the per-block ones concatenated; the checkpoint is the last block that succeeded, or unchanged |
| BackfillTransaction.Service.ProcessChunks | internal/services/backfillTransaction/backfill_transaction.go:50-58 | the chunk loop schedules exactly `Chunks(first, currentBlock, ChunkSize)` and runs every block of `[first, currentBlock]` in order: attempts, processor inputs and saved records are the per-block ones over that range |
| BackfillTransaction.Service.BackfillMissedBlocks | internal/services/backfillTransaction/backfill_transaction.go:33-63 | a failing height or checkpoint read is returned before any block is attempted; then a negative MaxConcurrency panics at the semaphore's creation; with blocks to do, ChunkSize <= 0 (endless chunk loop) or MaxConcurrency = 0 (unbuffered semaphore never received from) never returns; an error is returned only for a failing read, so otherwise (including last >= current) the result is nil whatever the blocks did, every block of [last+1, current] was run, and the saved records are the processor's saves for what those blocks handed over; every non-nil outcome changes nothing |
| BackfillTransaction.AttemptsMade | internal/services/backfillTransaction/backfill_transaction.go:91-101 | the number of attempts is between 1 and 3; fewer than 3 means the last succeeded, and every earlier one failed |
| BackfillTransaction.AttemptsMadeIsFirstSuccess | internal/services/backfillTransaction/backfill_transaction.go:91-101 | the attempt at which the retries stop is the first success, or the third attempt |
| BackfillTransaction.BlockAttemptsShape | internal/services/backfillTransaction/backfill_transaction.go:91-101 | a block's attempt log lists attempts 1.. in order, 1 to 3 entries; all but the last failed; the last succeeded iff the block ends processed; fewer than 3 means it succeeded |
| BackfillTransaction.RetryStops | internal/services/backfillTransaction/backfill_transaction.go:91-101 | where the retry loop stops (first success, or the third attempt), the attempts made and transactions handed over are those of the block specification, and the block is processed iff that last attempt succeeded |
| BackfillTransaction.RunAttempts | internal/services/backfillTransaction/backfill_transaction.go:85-101 | over a range, every block is attempted (its attempt 1 is in the log) and has between 1 and 3 entries in the attempt log, every entry is numbered 1 to 3, and no block outside the range is attempted |
| BackfillTransaction.CheckpointIsLastSuccess | internal/services/backfillTransaction/backfill_transaction.go:143-146 | the checkpoint a run leaves is unchanged when no block succeeded, else the highest block of the range that succeeded |
| BackfillTransaction.CheckpointAdvances | internal/services/backfillTransaction/backfill_transaction.go:50 | a run starting past the stored checkpoint never moves it backwards (in the sequential order of the model) |
| BackfillTransaction.BlockTxsShape | internal/services/backfillTransaction/backfill_transaction.go:115-141 | the processor only receives converted transactions of that block; a block the chain lacks hands nothing over and never succeeds; a processed block's whole converted transaction list is the last part handed over |
| BackfillTransaction.AttemptTxsPrefix | internal/services/backfillTransaction/backfill_transaction.go:115-141 | across attempts, only transactions of the fetched block are handed over |
| BackfillTransaction.ProcessedBlocksSaved | internal/services/backfillTransaction/backfill_transaction.go:84-141 | for a run over a range, every record the processor's filter yields for a transaction of a block of the range that ends processed is among the run's saved records |
| BackfillTransaction.RunSavesFromRange | internal/services/backfillTransaction/backfill_transaction.go:84-141 | every record a run over a range saves comes from a converted transaction of a block of that range |
| BackfillTransaction.Converted | internal/services/backfillTransaction/backfill_transaction.go:128-135 | one converted transaction per block transaction, in order, with the block's parent slot and time |
| Retry.Retry | internal/utils/retry_config.go:40-69 | the options are applied over the defaults; at most MaxAttempts calls; the first nil result returns nil at once; a context done during a wait returns the context's error; all attempts failed gives "operation failed after retries: " plus the last error; a wait of getDelay(k) follows every failed attempt k, including the last; MaxAttempts <= 0 makes no call and panics |
| Retry.Apply | internal/utils/retry_config.go:19-38 | each `With*` option writes its own field with its argument and keeps the other two |
| Retry.ApplyAll | internal/utils/retry_config.go:49-52 | after the option loop the last option's value holds, and a field that no option writes keeps its previous value |
| Retry.DelayChoice | internal/utils/retry_config.go:72-77 | with a backoff set, the wait is the backoff's value and the Delay field is ignored; without one, every attempt waits the same fixed Delay |
| Retry.LastOptionWins | internal/utils/retry_config.go:49-52 | options are applied in order: the last option of a kind decides its field |
| Retry.ApplyAllSplit | internal/utils/retry_config.go:49-52 | applying `a + b` is applying `a` then `b` |
| Retry.DefaultsWithoutOptions | internal/utils/retry_config.go:42-47 | without options: 3 attempts, 1s delay, no backoff, every wait 1s |
| RetryPresets.DefaultRetryConfig | internal/utils/utils.go:5-11 | the three arguments are stored unchanged |
| RetryPresets.DatabaseRetryConfig | internal/utils/utils.go:13-17 | 3 attempts, a 2s Delay, and a wait of attempt x 2s |
| RetryPresets.WebSocketRetryConfig | internal/utils/utils.go:19-23 | 10 attempts, a 1s Delay, and a wait of attempt x 500ms |
| RetryPresets.DatabasePresetSchedule | internal/utils/utils.go:13-17 | 3 attempts; backoff set; wait(a) = a x 2s, strictly increasing, positive for a >= 1; the Delay field never decides a wait |
| RetryPresets.WebSocketPresetSchedule | internal/utils/utils.go:19-23 | 10 attempts; backoff set; wait(a) = a x 500ms, strictly increasing, positive for a >= 1; the Delay field never decides a wait |
| RetryPresets.PresetAsOptions | internal/utils/retry_config.go:19-52 | passing a configuration's three fields as options makes `Retry` run with exactly that configuration |
| Configs.ValidateConfig | configs/config.go:90-110 | nil means no required field is missing; an error names a missing field, and no check earlier in the order fails |
| Configs.MessageIdentifiesCheck | configs/config.go:90-110 | the six error texts are pairwise distinct, so a rejection's message names the first missing field in the validation order |
| Configs.AcceptedIffComplete | configs/config.go:90-110 | nil iff the URI, scheme, host and path are nonempty and there is at least one wallet and one token |
| Configs.OnlyRequiredFieldsMatter | configs/config.go:90-110 | retry, app and coordinator settings are never inspected |
| LegacyMain.AnyMonitoredMint | main.go:118-122 | the token loop is true iff some pre-token balance has a monitored mint |
| LegacyMain.AnyMonitoredAccount | main.go:125-129 | the wallet loop is true iff some account key, at any index, is a monitored wallet |
| LegacyMain.FilterIff | main.go:116-131 | `filterTransaction` is true iff a balance has a monitored mint or an account is a monitored wallet; no balances and no monitored account give false |
| LegacyMain.EitherConditionSuffices | main.go:116-131 | a mint match alone passes; a wallet at the source index alone passes, even with no balances, and such a transaction cannot be stored |
| LegacyMain.RecordOf | main.go:137-144 | the record takes hash from signature 0, source from account 0, destination from account 1, amount and mint from balance 0 |
| LegacyMain.Database.StoreTransaction | main.go:134-152 | a missing signature, second account or first balance panics and inserts nothing; otherwise the record is inserted, or the insert error is returned with its prefix |
| LegacyMain.Database.ProcessTransaction | main.go:97-113 | a fetch error is returned and nothing stored; a nil or non-matching transaction returns nil and nothing stored; otherwise the outcome is `storeTransaction`'s |
| Enums.IsSubscribe | internal/enums/enums.go:13-15 | true only for the two subscribe actions, never for an unsubscribe action |
| Enums.IsUnsubscribe | internal/enums/enums.go:17-19 | true only for the two unsubscribe actions, both of them known actions |
| Enums.ActionsDistinct | internal/enums/enums.go:6-10 | the four action constants are pairwise distinct |
| Enums.Classification | internal/enums/enums.go:13-19 | each known action satisfies exactly one of the two predicates; any other string satisfies neither |
| Environment.IsTesting | internal/utils/environment.go:14-16 | holds of "testing" and of none of the five other environment names |
| Environment.IsProduction | internal/utils/environment.go:18-20 | holds of "production" and of none of the five other environment names |
| Environment.IsStaging | internal/utils/environment.go:22-24 | holds of "staging" and of none of the five other environment names, "staging-canary" included |
| Environment.IsLocal | internal/utils/environment.go:26-28 | holds of "local" and of none of the five other environment names |
| Environment.IsCanary | internal/utils/environment.go:30-32 | holds of "canary" and of none of the five other environment names |
| Environment.IsStagingCanary | internal/utils/environment.go:34-36 | agrees with `IsCanary` on every input |
| Environment.StagingCanaryQuirk | internal/utils/environment.go:34-36 | true for "canary", false for "staging-canary" |
| Environment.PredicatesExclusive | internal/utils/environment.go:5-32 | at most one of the five predicates holds of any environment, and exactly one holds of each constant |

## Left out

- Floating point: `strconv.ParseFloat` and the division by `math.Pow10(decimals)` are not
  modelled. The record keeps the raw amount text and its decimals. Whether the text
  parses is the `parses` oracle.
- The processor's `Save` signature, which differs from the repository contract's.
  `Save` is a log of records whose error only skips to the next entry. The
  `time.Now()` timestamp is not modelled.
- Concurrency in the backfill: the semaphore, the `WaitGroup` and the goroutines per
  chunk and per block are run one after another, in ascending order. The order of
  checkpoint writes between goroutines is not captured.
- BackfillTransaction.CheckpointIsLastSuccess: it states the final checkpoint for the
  sequential order only. Under the Go scheduling, the last write wins, and that is not
  necessarily the highest block.
- BackfillTransaction.CheckpointAdvances: the same applies; it holds for the sequential
  order only.
- `retry.Do` from avast/retry-go in the backfill: only its attempt count (3) and its stop
  at the first success are modelled. Its backoff waits, the `OnRetry` logging and its
  error aggregation are not.
- `utils.ConvertToClientTransaction` is not part of this model. It is the uninterpreted
  `convert` of the backfill service, applied to the wire transaction, the parent slot and
  the block time. The block-time conversion to Unix seconds is folded into that value.
- The fetch of a block is a fixed map from height to block plus a transient-failure
  oracle per (height, attempt). The chain, the checkpoint-write oracle and
  `ChunkSize` are fixed per backfill service.
- The `uint64` conversion of the block height and `int64` overflow of `start +
  ChunkSize`: heights are unbounded integers.
- `MaxConcurrency`: only its two effects on whether the run returns are modelled (a
  negative value panics, zero blocks forever). How many blocks run at once is not.
- BackfillTransaction.Service.BackfillMissedBlocks: its postcondition describes the state
  after every block goroutine has finished. The Go function waits only for the chunk
  goroutines (`wg` at lines 53-55 and 61 of the backfill service); `processBlockRange`
  does not wait for the block goroutines it starts. So it can return nil while up to
  `MaxConcurrency` blocks are still fetching, processing and writing the checkpoint.
- Base58 (`ToBase58`): accounts are their text. Signatures in the legacy monitor are
  opaque text.
- A nil `Meta` on a fetched transaction is not modelled; the balance list is always
  present.
- The retry primitive's timer and context are oracles. The time a wait takes is not
  modelled, only which delay it uses.
- `monitorTransactions` in root `main.go` is the polling loop with sleeps and goroutines
  and is not part of this model. Neither are `initMongoDB` and the signal handling in `main`.
- The websocket manager, the transaction monitor and coordinator, the Solana client
  wrapper, the application composition root, the configuration loading from files, the
  logger and the metrics: network I/O, concurrency and glue.
- The MongoDB repository implementations. Only their abstract behaviour is modelled:
  a missing checkpoint reads as 0, and an update is an overwriting upsert.
