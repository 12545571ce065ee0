/**
 * The shared data types of the ledger: transactions, their dispute state,
 * the operations produced by the reader, and client accounts.
 *
 * Decimal amounts are fixed-point with DecimalPlaces fractional digits and are
 * represented exactly as an integer count of 10^-DecimalPlaces units, so
 * `1.5000` is 15000.  Checked arithmetic is modelled as failing when the
 * magnitude of a result leaves the range a 96-bit mantissa can hold at that
 * scale: a fixed abstract bound, where the decimal library would instead give
 * up fractional digits first.
 */
module LedgerTypes {
  import opened Wrappers

  /** Number of places past the decimal point that amounts carry. */
  const DecimalPlaces: nat := 4

  /** Largest magnitude of a balance the model admits, in units of 10^-DecimalPlaces (2^96 - 1). */
  const MaxMagnitude: nat := 79228162514264337593543950335

  /** Unsigned 16-bit client identifier. */
  type ClientId = x: int | 0 <= x < 0x1_0000

  /** Unsigned 32-bit transaction identifier. */
  type TxId = x: int | 0 <= x < 0x1_0000_0000

  /** A fixed-point amount at scale DecimalPlaces, counted in units of 10^-DecimalPlaces. */
  type Amount = int

  /**
   * Dispute lifecycle of a stored transaction. Resolved is the initial state;
   * a transaction may go back and forth between Resolved and Disputed, and
   * Chargeback is final.
   */
  datatype TransactionState = Resolved | Disputed | Chargeback

  /** A deposit (positive amount) or withdrawal (negative amount). */
  datatype Transaction = Transaction(tx: TxId, client: ClientId, amount: Amount, state: TransactionState)

  /** A request to move an existing transaction into `state`. */
  datatype TransactionMod = TransactionMod(tx: TxId, client: ClientId, state: TransactionState)

  /** One operation for the engine: create a transaction, or modify an existing one. */
  datatype TransactionRow = New(t: Transaction) | Mod(m: TransactionMod)

  /** An operation as the reader produces it: a creation always starts out Resolved. */
  predicate Normalised(op: TransactionRow) {
    op.New? ==> op.t.state == Resolved
  }

  /** A client account. The available balance is derived, never stored. */
  datatype Client = Client(client: ClientId, total: Amount, held: Amount, locked: bool) {
    /** Funds the client may withdraw now: what is not held. */
    function Available(): (r: Amount)
      ensures r + held == total
    {
      total - held
    }
  }

  /** The account opened by a client's first accepted deposit. */
  function NewClient(client: ClientId, total: Amount): (c: Client)
    ensures c.client == client && c.total == total
    ensures c.held == 0 && !c.locked
    ensures c.Available() == total
  {
    Client(client, total, 0, false)
  }

  predicate InRange(x: int) {
    -(MaxMagnitude as int) <= x <= MaxMagnitude
  }

  /** Addition that reports overflow as None instead of losing the value. */
  function CheckedAdd(a: Amount, b: Amount): (r: Option<Amount>)
    ensures r.Some? <==> InRange(a + b)
    ensures r.Some? ==> r.value == a + b
  {
    if InRange(a + b) then Some(a + b) else None
  }

  /** Subtraction that reports overflow as None instead of losing the value. */
  function CheckedSub(a: Amount, b: Amount): (r: Option<Amount>)
    ensures r.Some? <==> InRange(a - b)
    ensures r.Some? ==> r.value == a - b
  {
    if InRange(a - b) then Some(a - b) else None
  }
}
