# csv-transaction-engine in Dafny

A model of the payments ledger in moparisthebest/csv-transaction-engine. The
model has two parts:

- **The record normaliser.** It takes each deserialised input row (`type,
  client, tx, amount`) and turns it into an engine operation or rejects it.
  Its iterator yields the rows that convert, in input order.
- **The transaction engine.** It keeps every transaction by id and every
  client account by id. It applies one operation at a time and either
  commits it whole or rejects it with nothing changed.

Amounts are fixed-point decimals with four fractional digits. The model
represents each one exactly as an integer count of 10^-4 units, so `1.5`
becomes 15000. The model's checked addition and subtraction fail when the
magnitude leaves the range of a 96-bit mantissa at that scale, 2^96 - 1 units.
This is an abstract bound; see "Left out". The engine applies
creations (deposits and withdrawals) and the dispute lifecycle: Resolved ->
Disputed -> Resolved or Chargeback, where Chargeback is final and locks the
account.

Modules, in dependency order:

- `Wrappers` (`wrappers.dfy`): Option and Result.
- `LedgerTypes` (`ledger_types.dfy`): transactions, their states, operations,
  client accounts, and checked arithmetic.
- `TransactionReader` (`transaction_reader.dfy`): the normaliser `TryInto`,
  the filter `ValidRecords`, and the class `ValidRecordsIter`. The iterator's
  `Next` loops past records that do not convert.
- `LedgerSums` (`ledger_sums.dfy`): what each balance must add up to, computed
  from the transaction map.
- `Engine` (`transaction_engine.dfy`): the pure step function `Step` and the
  class `TransactionEngine`. The class holds the two maps as fields. Its
  `Apply` updates them in place and is proved to agree with `Step`.
- `Driver` (`driver.dfy`): the replay of the valid records through one engine,
  as the function `Replay` and as the loop `RunLedger`.
- `Scenarios` (`scenarios.dfy`): the repository's two end-to-end tests, stated
  over the model.

Two invariants are proved for every reachable ledger:

- **Well formed.** Each transaction is stored under its own id and its owner
  has an account. Each account is stored under its own id.
- **Balanced.** For each client:
  - `total` is the sum of its transactions that were not charged back;
  - `held` is the sum of its disputed transactions;
  - `available` is therefore the sum of its resolved transactions;
  - the account is locked exactly when one of its transactions was charged
    back.

## Model

| member | source | states |
|---|---|---|
| `LedgerTypes.NewClient` | src/main.rs:54-61 | A new account keeps the client id and the total. It holds nothing, is unlocked, and its available balance equals the total. |
| `LedgerTypes.Client.Available` | src/main.rs:63-65 | Available plus held is exactly the total. |
| `LedgerTypes.CheckedAdd` | src/transaction_engine.rs:48-54 | Addition succeeds exactly when the sum is within the decimal range, and then yields the sum. |
| `LedgerTypes.CheckedSub` | src/transaction_engine.rs:99-102 | Subtraction succeeds exactly when the difference is within the decimal range, and then yields the difference. |
| `TransactionReader.Rescale` | src/transaction_reader.rs:76-81 | Bringing an accepted amount to four places keeps its value (`r * 10^scale == mantissa * 10^4`). A non-zero amount stays non-zero. |
| `TransactionReader.TryInto` | src/transaction_reader.rs:71-113 | A deposit or withdrawal converts exactly when the amount is present, has at most four fractional digits, and is neither zero nor negative. It becomes a Resolved `New` with the same tx and client. Its amount has the same value at scale 4, negated for a withdrawal, so a deposit is positive and a withdrawal negative. A dispute, resolve or chargeback converts exactly when it has no amount. It becomes a `Mod` with the same tx and client, targeting Disputed, Resolved or Chargeback. |
| `TransactionReader.ValidRecords` | src/transaction_reader.rs:36-47 | The filtered stream is no longer than the input, and every creation in it starts out Resolved. |
| `TransactionReader.ValidRecordsAppend` | src/transaction_reader.rs:36-47 | Filtering two stretches of input is filtering each and concatenating the results. |
| `TransactionReader.ValidRecordsIsSubsequence` | src/transaction_reader.rs:36-47 | The valid records are the conversions of the converting records, at strictly increasing positions. Every record left out fails to convert. |
| `TransactionReader.ValidRecordsIter.constructor` | src/transaction_reader.rs:22-26 | The iterator starts at the first record of the input. |
| `TransactionReader.ValidRecordsIter.Next` | src/transaction_reader.rs:36-47 | Each call yields the next operation of the filtered remainder, or None once the input is exhausted. On Some, the record just consumed converts to the yielded operation, and every record skipped before it fails to convert. On None, every record it consumed failed to convert. |
| `LedgerSums.SumAvailable` | src/main.rs:63-65 | Summed over any transaction map, the total part minus the held part equals the resolved part. |
| `Engine.Step` | src/transaction_engine.rs:24-130 | A rejected operation leaves the ledger as it was. An applied one never drops a transaction or a client, never changes a transaction's owner or amount, never alters a charged-back transaction, and never unlocks an account. |
| `Engine.DuplicateIdRejected` | src/transaction_engine.rs:30-70 | A creation whose tx id is already stored is rejected and changes nothing. |
| `Engine.FirstOperationOpensAccount` | src/transaction_engine.rs:34-42 | For an unknown client, a creation is applied exactly when its amount is not negative. A rejected one creates no account. An applied one stores the transaction and opens the account with that total, nothing held, unlocked. |
| `Engine.CreationOnExistingAccount` | src/transaction_engine.rs:43-67 | For an existing client, a creation is applied exactly when four conditions hold. The account is not locked, or the amount is not negative. Available plus amount is in range and not negative. Total plus amount is in range and not negative. The only effects are the new transaction and the new total. |
| `Engine.ModOfUnknownOrForeignRejected` | src/transaction_engine.rs:73-79 | A modifier naming an unknown tx, or a client other than the transaction's owner, is rejected and changes nothing. |
| `Engine.ModMovesLifecycle` | src/transaction_engine.rs:81-124 | An applied modifier always follows an allowed lifecycle move. A dispute applies exactly when the transaction is Resolved and held plus amount is in range, and it adds the amount to held. A resolve applies exactly when the transaction is Disputed and held minus amount is in range, and it takes the amount off held. A chargeback applies exactly when the transaction is Disputed and both subtractions are in range. It takes the amount off held and off total and locks the account. |
| `Engine.ChargebackIsTerminal` | src/main.rs:24-30 | Every modifier of a charged-back transaction is rejected. |
| `Engine.DisputeTwiceHoldsOnce` | src/transaction_engine.rs:82-93 | The same dispute twice in a row is applied once: the second is rejected. |
| `Engine.ResolveUndoesDispute` | src/transaction_engine.rs:82-105 | A resolve straight after a dispute is applied and restores the ledger exactly. |
| `Engine.DisputedWithdrawalRaisesAvailable` | src/transaction_engine.rs:82-93 | An applied dispute of a withdrawal leaves the total as it was and raises the available balance by the withdrawn amount. When the available balance was at the bound, it leaves the decimal range. |
| `Engine.StepKeepsWellFormed` | src/transaction_engine.rs:80 | Every step keeps each transaction's owner present in the client map, so the source's unwrap never fails. |
| `Engine.StepKeepsBalanced` | src/transaction_engine.rs:27-130 | Every operation the reader can produce keeps each client's total, held balance and lock in agreement with its transactions. |
| `Engine.AvailableIsResolvedFunds` | src/main.rs:63-65 | In a balanced ledger, a client's available balance is the sum of its resolved transactions. |
| `Engine.TransactionEngine.constructor` | src/transaction_engine.rs:14-21 | A new engine has no transactions and no clients. |
| `Engine.TransactionEngine.Apply` | src/transaction_engine.rs:27-130 | Updating the two maps in place has the effect `Step` describes, and the result says whether it applied. On false both maps are unchanged. The engine stays well formed. |
| `Engine.TransactionEngine.Clients` | src/transaction_engine.rs:132-134 | The client records are exactly the accounts stored in the client map. |
| `Driver.Replay` | src/main.rs:95-97 | Applies `Step` to each operation in order, starting from the given ledger. No run forgets a transaction or a client. `Driver.ReplayAppend` and `Driver.ReplayKeepsInvariants` carry its other properties. |
| `Driver.ReplayAppend` | src/main.rs:95-97 | Replaying two stretches of the stream is replaying the first, then the second from where it ended. |
| `Driver.ReplayKeepsInvariants` | src/main.rs:95-97 | Replaying reader output keeps the ledger well formed and balanced. |
| `Driver.ChargebackIsFinalForRun` | src/main.rs:24-30 | A charged-back transaction stays exactly as it is for the rest of the run. |
| `Driver.LockedForRestOfRun` | src/transaction_engine.rs:121-122 | A locked account stays locked for the rest of the run. |
| `Driver.RunLedger` | src/main.rs:93-97 | Running over the input applies each valid record once, in input order, to a fresh engine. It ends in the replay of the filtered stream, and that ledger is balanced. |
| `Scenarios.ReaderTestRows` | src/transaction_reader.rs:124-180 | On the reader test input, the reader yields exactly the fifteen expected operations. Missing, zero, negative and over-precise amounts are dropped, and so is a dispute carrying an amount. |
| `Scenarios.EngineTestRecords` | src/main.rs:111-157 | The engine test input yields the expected operations. |
| `Scenarios.EngineTestStretch0` | src/main.rs:113-119 | Creations reusing tx 3 and tx 2 are ignored. |
| `Scenarios.EngineTestStretch1` | src/main.rs:120-125 | A withdrawal by an unknown client opens no account. Non-sequential ids are accepted. |
| `Scenarios.EngineTestChargebackThenDispute` | src/main.rs:129-131 | A chargeback of the resolved tx 5 is ignored. A dispute then holds its amount. |
| `Scenarios.EngineTestStretch2` | src/main.rs:128-131 | The deposit of tx 5 is accepted. A chargeback of a resolved transaction is ignored. A dispute holds the amount. |
| `Scenarios.EngineTestStretch2b` | src/main.rs:132-134 | A second dispute is ignored. The resolve releases the held amount. |
| `Scenarios.EngineTestStretch3` | src/main.rs:135-141 | A chargeback of a resolved transaction is ignored. Dispute then chargeback takes the amount off and locks the account. A later resolve is ignored. |
| `Scenarios.EngineTestStretch4` | src/main.rs:143-148 | A locked account cannot withdraw but can deposit. A dispute naming another client is ignored. |
| `Scenarios.EngineTestStretch5` | src/main.rs:150-153 | A withdrawal beyond the available funds is refused. A very large deposit is accepted. |
| `Scenarios.EngineTestRun` | src/main.rs:167-171 | Replaying the engine test input ends in the expected ledger. |
| `Scenarios.EngineTestClients` | src/main.rs:159-165 | The final client table has the expected rows: 1 with 1.0000; 2 with 3.0000 and locked; 3 with 2.0000; 50 with 7922816251426433801.5555. Each has nothing held. |

## Left out

- CSV reading and field deserialisation, from the csv crate and serde, are not modelled. The input is a sequence of records. Each record is an already deserialised row or `Malformed` for a line that fails to deserialise. The test inputs' comment lines are `Malformed`.
- Output is not modelled: `dump_client_csv` and decimal-to-string rendering.
- `main`'s argument and file handling is I/O and is not modelled.
- The iteration order of `clients()` is unspecified in the source. `Clients` returns a set.
- `LedgerTypes.CheckedAdd`, `LedgerTypes.CheckedSub`: rust_decimal's checked addition and subtraction do not fail at this bound. When the mantissa overflows at a non-zero scale they drop a decimal place and round, and they return None only at scale 0. The model rejects any result beyond `MaxMagnitude` units, so the source accepts some rounded sums that the model rejects.
- rust_decimal's internals are abstracted. The 96-bit limit is the bound `MaxMagnitude` at scale 4. Rescaling near that limit and input mantissas beyond it are not modelled. A negative zero cannot arise as an integer amount.
- `LedgerTypes.Client.Available`: computed as an exact integer. In the source, `total - held` is unchecked and would panic if the result left the decimal range. `Engine.DisputedWithdrawalRaisesAvailable` shows how: a dispute of a withdrawal raises the available balance with no range check.
- The last deposit of the engine test (src/main.rs:154-155) is left out of the scenario. Its 21-digit amount fits the 96-bit range at scale 4, so its rejection comes from number parsing, which is not part of this model.
- `Engine.Step`: a modifier whose owner has no account is rejected, where the source's unwrap (src/transaction_engine.rs:80) would panic. `Engine.StepKeepsWellFormed` shows that this never happens in a reachable ledger.
- `Engine.StepKeepsBalanced`: requires creations to start out Resolved. The engine accepts any state in a `New` row, but the reader only produces Resolved creations (`TransactionReader.ValidRecords`).
