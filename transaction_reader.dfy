/**
 * The record normaliser: turns one already-deserialised input row into an
 * engine operation or a rejection, and the iterator that keeps only the rows
 * that convert, in input order.
 */
module TransactionReader {
  import opened Wrappers
  import opened LedgerTypes

  /** The `type` column of an input row. */
  datatype RawTransactionType = Deposit | Withdrawal | Dispute | Resolve | Chargeback {
    predicate IsCreation() { this == Deposit || this == Withdrawal }
  }

  /**
   * A decimal as the input carries it: a sign flag, the unscaled magnitude and
   * the number of fractional digits. `2.0010` is Decimal(false, 20010, 4).
   */
  datatype Decimal = Decimal(negative: bool, mantissa: nat, scale: nat) {
    predicate IsZero() { mantissa == 0 }
    predicate IsSignNegative() { negative }
  }

  /** One input row after field deserialisation. */
  datatype RawTransactionRow = RawTransactionRow(kind: RawTransactionType, client: ClientId, tx: TxId, amount: Option<Decimal>)

  /** What deserialising one line of input yields: a row, or a malformed line. */
  datatype Record = Parsed(row: RawTransactionRow) | Malformed

  function Pow10(n: nat): (r: nat)
    ensures r >= 1
  {
    if n == 0 then 1 else 10 * Pow10(n - 1)
  }

  lemma {:induction false} Pow10Add(a: nat, b: nat)
    ensures Pow10(a + b) == Pow10(a) * Pow10(b)
  {
    if a > 0 {
      Pow10Add(a - 1, b);
    }
  }

  /** The amount rules a deposit or withdrawal must meet. */
  predicate AcceptableAmount(amount: Option<Decimal>) {
    amount.Some? && amount.value.scale <= DecimalPlaces && !amount.value.IsZero() && !amount.value.IsSignNegative()
  }

  /**
   * The magnitude of `d` brought to exactly DecimalPlaces fractional digits;
   * the decimal value it denotes is unchanged.
   */
  function Rescale(d: Decimal): (r: nat)
    requires d.scale <= DecimalPlaces
    ensures r * Pow10(d.scale) == d.mantissa * Pow10(DecimalPlaces)
    ensures d.mantissa != 0 ==> r > 0
  {
    Pow10Add(DecimalPlaces - d.scale, d.scale);
    d.mantissa * Pow10(DecimalPlaces - d.scale)
  }

  /** The target state a Dispute, Resolve or Chargeback row asks for. */
  function TargetState(kind: RawTransactionType): TransactionState
    requires !kind.IsCreation()
  {
    match kind
    case Dispute => Disputed
    case Resolve => Resolved
    case Chargeback => TransactionState.Chargeback
  }

  /**
   * Converts a raw row into an operation. A deposit or withdrawal needs an
   * amount that is present, has at most DecimalPlaces fractional digits and is
   * neither zero nor negative; a withdrawal is stored as a negative amount.
   * A dispute, resolve or chargeback must carry no amount.
   */
  function TryInto(row: RawTransactionRow): (r: Result<TransactionRow, string>)
    ensures row.kind.IsCreation() ==> (r.Success? <==> AcceptableAmount(row.amount))
    ensures row.kind.IsCreation() && r.Success? ==>
      && r.value.New?
      && r.value.t.tx == row.tx && r.value.t.client == row.client
      && r.value.t.state == Resolved
      && var d := row.amount.value;
         r.value.t.amount * Pow10(d.scale) == (if row.kind == Withdrawal then -1 else 1) * d.mantissa * Pow10(DecimalPlaces)
    ensures row.kind == Deposit && r.Success? ==> r.value.t.amount > 0
    ensures row.kind == Withdrawal && r.Success? ==> r.value.t.amount < 0
    ensures !row.kind.IsCreation() ==> (r.Success? <==> row.amount.None?)
    ensures !row.kind.IsCreation() && r.Success? ==>
      r.value == Mod(TransactionMod(row.tx, row.client, TargetState(row.kind)))
  {
    match row.kind
    case Deposit | Withdrawal =>
      if AcceptableAmount(row.amount) then
        var magnitude := Rescale(row.amount.value);
        var amount: Amount := if row.kind == Withdrawal then -(magnitude as int) else magnitude;
        Success(New(Transaction(row.tx, row.client, amount, Resolved)))
      else
        Failure("missing or invalid amount")
    case Dispute | Resolve | Chargeback =>
      match row.amount
      case Some(_) => Failure("amount provided for Dispute/Resolve/Chargeback and not allowed")
      case None => Success(Mod(TransactionMod(row.tx, row.client, TargetState(row.kind))))
  }

  /** The operation a record yields, if it deserialised and converts. */
  function Convert(rec: Record): Option<TransactionRow> {
    match rec
    case Malformed => None
    case Parsed(row) => TryInto(row).ToOption()
  }

  /** The operations the input yields, in input order, with failing records skipped. */
  function ValidRecords(recs: seq<Record>): (r: seq<TransactionRow>)
    ensures |r| <= |recs|
    ensures forall j :: 0 <= j < |r| ==> Normalised(r[j])
  {
    if recs == [] then []
    else
      match Convert(recs[0])
      case Some(op) => [op] + ValidRecords(recs[1..])
      case None => ValidRecords(recs[1..])
  }

  /** Filtering distributes over concatenation of the input. */
  lemma {:induction false} ValidRecordsAppend(a: seq<Record>, b: seq<Record>)
    ensures ValidRecords(a + b) == ValidRecords(a) + ValidRecords(b)
  {
    if a == [] {
      assert a + b == b;
    } else {
      assert (a + b)[0] == a[0];
      assert (a + b)[1..] == a[1..] + b;
      ValidRecordsAppend(a[1..], b);
    }
  }

  /** What each record converts to, position by position. */
  function Conversions(recs: seq<Record>): (r: seq<Option<TransactionRow>>)
    ensures |r| == |recs|
    ensures forall i :: 0 <= i < |recs| ==> r[i] == Convert(recs[i])
  {
    if recs == [] then [] else [Convert(recs[0])] + Conversions(recs[1..])
  }

  /**
   * `idx` selects from the conversions `opts` the ones that produced `out`:
   * strictly increasing positions, each holding the matching output, and
   * every position left out holds None.
   */
  ghost predicate Picks(opts: seq<Option<TransactionRow>>, idx: seq<nat>, out: seq<TransactionRow>) {
    && |idx| == |out|
    && PickedAt(opts, idx, out)
    && Increasing(idx)
    && SkipsOnlyNone(opts, idx)
  }

  /** Position `idx[j]` holds the `j`-th output. */
  ghost predicate PickedAt(opts: seq<Option<TransactionRow>>, idx: seq<nat>, out: seq<TransactionRow>)
    requires |idx| == |out|
  {
    forall j :: 0 <= j < |idx| ==> idx[j] < |opts| && opts[idx[j]] == Some(out[j])
  }

  ghost predicate Increasing(idx: seq<nat>) {
    forall j, k :: 0 <= j < k < |idx| ==> idx[j] < idx[k]
  }

  /** Every position not picked holds a failed conversion. */
  ghost predicate SkipsOnlyNone(opts: seq<Option<TransactionRow>>, idx: seq<nat>) {
    forall i :: 0 <= i < |opts| && i !in idx ==> opts[i] == None
  }

  /** Every position of `idx` moved one further. */
  function Shift(idx: seq<nat>): (r: seq<nat>)
    ensures |r| == |idx|
    ensures forall j :: 0 <= j < |r| ==> r[j] == idx[j] + 1
  {
    if idx == [] then [] else [idx[0] + 1] + Shift(idx[1..])
  }

  /** A conversion that succeeds is picked at position 0, ahead of the picks from the rest. */
  lemma PicksKeep(op: TransactionRow, tail: seq<Option<TransactionRow>>, rest: seq<nat>, out: seq<TransactionRow>)
    requires Picks(tail, rest, out)
    ensures Picks([Some(op)] + tail, [0] + Shift(rest), [op] + out)
  {
    KeepPickedAt(op, tail, rest, out);
    KeepIncreasing(rest);
    KeepSkipsOnlyNone(op, tail, rest);
  }

  lemma KeepPickedAt(op: TransactionRow, tail: seq<Option<TransactionRow>>, rest: seq<nat>, out: seq<TransactionRow>)
    requires |rest| == |out| && PickedAt(tail, rest, out)
    ensures PickedAt([Some(op)] + tail, [0] + Shift(rest), [op] + out)
  {
    var idx, shifted := [0] + Shift(rest), Shift(rest);
    forall j | 0 <= j < |idx|
      ensures idx[j] < 1 + |tail| && ([Some(op)] + tail)[idx[j]] == Some(([op] + out)[j])
    {
      if j > 0 {
        assert idx[j] == shifted[j - 1] == rest[j - 1] + 1;
      }
    }
  }

  lemma KeepIncreasing(rest: seq<nat>)
    requires Increasing(rest)
    ensures Increasing([0] + Shift(rest))
  {
    var idx, shifted := [0] + Shift(rest), Shift(rest);
    forall j, k | 0 <= j < k < |idx|
      ensures idx[j] < idx[k]
    {
      assert idx[k] == shifted[k - 1];
      if j > 0 {
        assert idx[j] == shifted[j - 1];
      }
    }
  }

  lemma KeepSkipsOnlyNone(op: TransactionRow, tail: seq<Option<TransactionRow>>, rest: seq<nat>)
    requires SkipsOnlyNone(tail, rest)
    ensures SkipsOnlyNone([Some(op)] + tail, [0] + Shift(rest))
  {
    var opts, idx, shifted := [Some(op)] + tail, [0] + Shift(rest), Shift(rest);
    forall i | 0 <= i < |opts| && i !in idx
      ensures opts[i] == None
    {
      assert i != 0 && opts[i] == tail[i - 1];
      forall j | 0 <= j < |rest|
        ensures rest[j] != i - 1
      {
        assert idx[j + 1] == shifted[j];
      }
    }
  }

  /** A conversion that fails is skipped; the picks from the rest move one further. */
  lemma PicksSkip(tail: seq<Option<TransactionRow>>, rest: seq<nat>, out: seq<TransactionRow>)
    requires Picks(tail, rest, out)
    ensures Picks([None] + tail, Shift(rest), out)
  {
    var opts, idx := [None] + tail, Shift(rest);
    forall i | 0 <= i < |opts| && i !in idx
      ensures opts[i] == None
    {
      if i > 0 {
        forall j | 0 <= j < |rest|
          ensures rest[j] != i - 1
        {
          assert idx[j] == rest[j] + 1;
        }
      }
    }
    forall j, k | 0 <= j < k < |idx|
      ensures idx[j] < idx[k]
    {
      assert idx[j] == rest[j] + 1;
    }
  }

  /** The valid records are exactly the converting records, in their original order. */
  lemma {:induction false} ValidRecordsIsSubsequence(recs: seq<Record>) returns (idx: seq<nat>)
    ensures Picks(Conversions(recs), idx, ValidRecords(recs))
  {
    if recs == [] {
      idx := [];
    } else {
      var tail := recs[1..];
      var rest := ValidRecordsIsSubsequence(tail);
      assert Conversions(recs) == [Convert(recs[0])] + Conversions(tail);
      match Convert(recs[0])
      case Some(op) =>
        PicksKeep(op, Conversions(tail), rest, ValidRecords(tail));
        idx := [0] + Shift(rest);
      case None =>
        PicksSkip(Conversions(tail), rest, ValidRecords(tail));
        idx := Shift(rest);
    }
  }

  /**
   * The iterator over valid records: a cursor into the deserialised input
   * that skips every record that does not convert.
   */
  class ValidRecordsIter {
    var records: seq<Record>
    var pos: nat

    ghost predicate Valid()
      reads this
    {
      pos <= |records|
    }

    /** The records not yet consumed. */
    function Remaining(): seq<Record>
      reads this
      requires Valid()
    {
      records[pos..]
    }

    constructor (records: seq<Record>)
      ensures Valid() && this.records == records && pos == 0
    {
      this.records := records;
      pos := 0;
    }

    /**
     * Yields the next record that converts, consuming the failing records
     * before it, or None once the input is exhausted.
     */
    method Next() returns (r: Option<TransactionRow>)
      requires Valid()
      modifies this
      ensures Valid() && records == old(records) && old(pos) <= pos
      ensures ValidRecords(old(Remaining())) == (if r.Some? then [r.value] else []) + ValidRecords(Remaining())
      ensures r.None? ==> pos == |records|
      ensures r.Some? ==> old(pos) < pos && Convert(records[pos - 1]) == Some(r.value)
      ensures forall i :: old(pos) <= i < pos && (r.None? || i < pos - 1) ==> Convert(records[i]) == None
    {
      while pos < |records|
        invariant old(pos) <= pos <= |records| && records == old(records)
        invariant ValidRecords(old(Remaining())) == ValidRecords(records[pos..])
        invariant forall i :: old(pos) <= i < pos ==> Convert(records[i]) == None
      {
        var rec := records[pos];
        assert records[pos..][1..] == records[pos + 1..];
        pos := pos + 1;
        match Convert(rec) {
          case Some(op) =>
            return Some(op);
          case None =>
        }
      }
      return None;
    }
  }
}
