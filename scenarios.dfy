/**
 * The repository's two end-to-end tests, stated over the model: which rows
 * the reader keeps, and the client table after a full run.
 */
module Scenarios {
  import opened Wrappers
  import opened LedgerTypes
  import opened TransactionReader
  import opened Engine
  import opened Driver

  function Row(kind: RawTransactionType, client: ClientId, tx: TxId, amount: Option<Decimal>): Record {
    Parsed(RawTransactionRow(kind, client, tx, amount))
  }

  /** A non-negative decimal with `scale` fractional digits. */
  function Dec(mantissa: nat, scale: nat): Option<Decimal> {
    Some(Decimal(false, mantissa, scale))
  }

  function Created(tx: TxId, client: ClientId, amount: Amount): TransactionRow {
    New(Transaction(tx, client, amount, Resolved))
  }

  /** The input of the reader test, in four stretches; lines that do not deserialise are Malformed. */
  function ReaderTestPart0(): seq<Record> {
    [ Row(Deposit, 1, 1, Dec(10, 1)),
      Row(Deposit, 2, 2, Dec(20, 1)),
      Row(Deposit, 1, 3, Dec(20, 1)),
      Row(Withdrawal, 1, 4, Dec(15, 1)),
      Row(Withdrawal, 2, 5, Dec(30, 1)),
      Malformed,                              // comment line
      Row(Withdrawal, 2, 5, None) ]
  }

  function ReaderTestPart1(): seq<Record> {
    [ Malformed,                              // amount "bla"
      Malformed,                              // type "bad"
      Row(Deposit, 4, 84, Dec(0, 0)),
      Row(Deposit, 4, 84, Dec(4, 0)),
      Malformed,                              // client "trash"
      Malformed,                              // tx "trash"
      Row(Deposit, 2, 2, Some(Decimal(true, 21, 1))) ]
  }

  function ReaderTestPart2(): seq<Record> {
    [ Row(Withdrawal, 2, 2, Some(Decimal(true, 21, 1))),
      Row(Deposit, 2, 2, Dec(2000001, 6)),
      Row(Deposit, 2, 2, Dec(200001, 5)),
      Row(Deposit, 2, 2, Dec(20001, 4)),
      Row(Deposit, 2, 2, Dec(2001, 3)),
      Row(Deposit, 2, 2, Dec(20010, 4)),
      Row(Deposit, 2, 2, Dec(201, 2)) ]
  }

  function ReaderTestPart3(): seq<Record> {
    [ Row(Deposit, 2, 2, Dec(21, 1)),
      Row(Deposit, 2, 2, Dec(2, 0)),
      Row(Dispute, 2, 2, Dec(5, 0)) ]
  }

  function ReaderTestPart4(): seq<Record> {
    [ Row(Dispute, 2, 2, None),
      Row(RawTransactionType.Chargeback, 2, 2, None),
      Row(Resolve, 2, 2, None) ]
  }

  function ReaderTestInput(): seq<Record> {
    ReaderTestPart0() + ReaderTestPart1() + ReaderTestPart2() + ReaderTestPart3() + ReaderTestPart4()
  }

  lemma ReaderTestPart0Rows()
    ensures ValidRecords(ReaderTestPart0()) == [Created(1, 1, 10000), Created(2, 2, 20000), Created(3, 1, 20000), Created(4, 1, -15000), Created(5, 2, -30000)]
  {
  }

  lemma ReaderTestPart1Rows()
    ensures ValidRecords(ReaderTestPart1()) == [Created(84, 4, 40000)]
  {
  }

  lemma ReaderTestPart2Rows()
    ensures ValidRecords(ReaderTestPart2()) == [Created(2, 2, 20001), Created(2, 2, 20010), Created(2, 2, 20010), Created(2, 2, 20100)]
  {
  }

  lemma ReaderTestPart3Rows()
    ensures ValidRecords(ReaderTestPart3()) == [Created(2, 2, 21000), Created(2, 2, 20000)]
  {
  }

  lemma ReaderTestPart4Rows()
    ensures ValidRecords(ReaderTestPart4()) == [Mod(TransactionMod(2, 2, Disputed)), Mod(TransactionMod(2, 2, TransactionState.Chargeback)), Mod(TransactionMod(2, 2, Resolved))]
  {
  }

  /**
   * The reader keeps exactly the well-formed rows: missing, zero, negative and
   * over-precise amounts are dropped, as is a dispute carrying an amount;
   * kept amounts are rescaled to four places and withdrawals negated.
   */
  lemma ReaderTestRows()
    ensures ValidRecords(ReaderTestInput()) ==
      [Created(1, 1, 10000), Created(2, 2, 20000), Created(3, 1, 20000), Created(4, 1, -15000), Created(5, 2, -30000)]
      + [Created(84, 4, 40000)]
      + [Created(2, 2, 20001), Created(2, 2, 20010), Created(2, 2, 20010), Created(2, 2, 20100)]
      + [Created(2, 2, 21000), Created(2, 2, 20000)]
      + [Mod(TransactionMod(2, 2, Disputed)), Mod(TransactionMod(2, 2, TransactionState.Chargeback)), Mod(TransactionMod(2, 2, Resolved))]
  {
    var p0, p1, p2, p3, p4 := ReaderTestPart0(), ReaderTestPart1(), ReaderTestPart2(), ReaderTestPart3(), ReaderTestPart4();
    ReaderTestPart0Rows();
    ReaderTestPart1Rows();
    ReaderTestPart2Rows();
    ReaderTestPart3Rows();
    ReaderTestPart4Rows();
    ValidRecordsAppend(p0 + p1 + p2 + p3, p4);
    ValidRecordsAppend(p0 + p1 + p2, p3);
    ValidRecordsAppend(p0 + p1, p2);
    ValidRecordsAppend(p0, p1);
  }

  /*
   * The engine test. The comment lines of its input do not deserialise and are
   * Malformed; its final deposit, which overflows the decimal type, is not part
   * of this model (see the README).
   */

  function EngineTestPart0(): seq<Record> {
    [ Row(Deposit, 1, 1, Dec(10, 1)),
      Row(Deposit, 2, 2, Dec(20, 1)),
      Row(Deposit, 3, 3, Dec(30, 1)),
      Malformed,                              // comment line
      Row(Deposit, 1, 3, Dec(20, 1)),
      Malformed,                              // comment line
      Row(Withdrawal, 1, 2, Dec(10, 1)) ]
  }

  function EngineTestPart1(): seq<Record> {
    [ Malformed,                              // comment line
      Row(Withdrawal, 100, 4, Dec(10, 1)),
      Malformed,                              // comment line
      Row(Withdrawal, 3, 50, Dec(10, 1)),
      Malformed,                              // comment line
      Row(Deposit, 50, 51, Dec(505555, 4)),
      Malformed ]                             // comment line
  }

  function EngineTestPart2(): seq<Record> {
    [ Row(Deposit, 2, 5, Dec(50, 1)),
      Malformed,                              // comment line
      Row(RawTransactionType.Chargeback, 2, 5, None),
      Row(Dispute, 2, 5, None),
      Malformed,                              // comment line
      Row(Dispute, 2, 5, None),
      Row(Resolve, 2, 5, None) ]
  }

  function EngineTestPart3(): seq<Record> {
    [ Malformed,                              // comment line
      Row(RawTransactionType.Chargeback, 2, 5, None),
      Malformed,                              // comment line
      Row(Dispute, 2, 5, None),
      Row(RawTransactionType.Chargeback, 2, 5, None),
      Malformed,                              // comment line
      Row(Resolve, 2, 5, None) ]
  }

  function EngineTestPart4(): seq<Record> {
    [ Malformed,                              // comment line
      Row(Withdrawal, 2, 6, Dec(10, 1)),
      Malformed,                              // comment line
      Row(Deposit, 2, 7, Dec(10, 1)),
      Malformed,                              // comment line
      Row(Dispute, 3, 7, None) ]
  }

  function EngineTestPart5(): seq<Record> {
    [ Malformed,                              // comment line
      Row(Withdrawal, 50, 8, Dec(60, 0)),
      Malformed,                              // comment line
      Row(Deposit, 50, 19, Dec(7922816251426433751, 0)) ]
  }

  function EngineTestInput(): seq<Record> {
    EngineTestPart0() + EngineTestPart1() + EngineTestPart2() + EngineTestPart3() + EngineTestPart4() + EngineTestPart5()
  }

  function Withdrawn(tx: TxId, client: ClientId, amount: Amount): TransactionRow {
    New(Transaction(tx, client, -amount, Resolved))
  }

  function Modify(tx: TxId, client: ClientId, state: TransactionState): TransactionRow {
    Mod(TransactionMod(tx, client, state))
  }

  const EngineTestOps0 := [Created(1, 1, 10000), Created(2, 2, 20000), Created(3, 3, 30000), Created(3, 1, 20000), Withdrawn(2, 1, 10000)]
  const EngineTestOps1 := [Withdrawn(4, 100, 10000), Withdrawn(50, 3, 10000), Created(51, 50, 505555)]
  /** A chargeback of the resolved tx 5, then a dispute of it: the test does this twice. */
  const ChargebackThenDispute := [Modify(5, 2, TransactionState.Chargeback), Modify(5, 2, Disputed)]
  const EngineTestOps2 := [Created(5, 2, 50000)] + ChargebackThenDispute
  const EngineTestOps2b := [Modify(5, 2, Disputed), Modify(5, 2, Resolved)]
  const EngineTestOps3 := ChargebackThenDispute + [Modify(5, 2, TransactionState.Chargeback), Modify(5, 2, Resolved)]
  const EngineTestOps4 := [Withdrawn(6, 2, 10000), Created(7, 2, 10000), Modify(7, 3, Disputed)]
  const EngineTestOps5 := [Withdrawn(8, 50, 600000), Created(19, 50, 79228162514264337510000)]

  lemma EngineTestPart0Ops()
    ensures ValidRecords(EngineTestPart0()) == EngineTestOps0
  {
  }

  lemma EngineTestPart1Ops()
    ensures ValidRecords(EngineTestPart1()) == EngineTestOps1
  {
  }

  lemma EngineTestPart2Ops()
    ensures ValidRecords(EngineTestPart2()) == EngineTestOps2 + EngineTestOps2b
  {
  }

  lemma EngineTestPart3Ops()
    ensures ValidRecords(EngineTestPart3()) == EngineTestOps3
  {
  }

  lemma EngineTestPart4Ops()
    ensures ValidRecords(EngineTestPart4()) == EngineTestOps4
  {
  }

  lemma EngineTestPart5Ops()
    ensures ValidRecords(EngineTestPart5()) == EngineTestOps5
  {
  }

  lemma EngineTestRecords()
    ensures ValidRecords(EngineTestInput())
         == EngineTestOps0 + EngineTestOps1 + (EngineTestOps2 + EngineTestOps2b) + EngineTestOps3 + EngineTestOps4 + EngineTestOps5
  {
    var p0, p1, p2, p3, p4, p5 := EngineTestPart0(), EngineTestPart1(), EngineTestPart2(), EngineTestPart3(), EngineTestPart4(), EngineTestPart5();
    EngineTestPart0Ops();
    EngineTestPart1Ops();
    EngineTestPart2Ops();
    EngineTestPart3Ops();
    EngineTestPart4Ops();
    EngineTestPart5Ops();
    ValidRecordsAppend(p0 + p1 + p2 + p3 + p4, p5);
    ValidRecordsAppend(p0 + p1 + p2 + p3, p4);
    ValidRecordsAppend(p0 + p1 + p2, p3);
    ValidRecordsAppend(p0 + p1, p2);
    ValidRecordsAppend(p0, p1);
  }

  /* The ledger after each stretch of the engine test. */

  const EngineTestLedger0 := Ledger(
    map[1 := Transaction(1, 1, 10000, Resolved), 2 := Transaction(2, 2, 20000, Resolved), 3 := Transaction(3, 3, 30000, Resolved)],
    map[1 := Client(1, 10000, 0, false), 2 := Client(2, 20000, 0, false), 3 := Client(3, 30000, 0, false)])

  const EngineTestLedger1 := Ledger(
    EngineTestLedger0.transactions[50 := Transaction(50, 3, -10000, Resolved)][51 := Transaction(51, 50, 505555, Resolved)],
    EngineTestLedger0.clients[3 := Client(3, 20000, 0, false)][50 := Client(50, 505555, 0, false)])

  const EngineTestLedger2 := Ledger(
    EngineTestLedger1.transactions[5 := Transaction(5, 2, 50000, Disputed)],
    EngineTestLedger1.clients[2 := Client(2, 70000, 50000, false)])

  const EngineTestLedger2b := Ledger(
    EngineTestLedger1.transactions[5 := Transaction(5, 2, 50000, Resolved)],
    EngineTestLedger1.clients[2 := Client(2, 70000, 0, false)])

  const EngineTestLedger3 := Ledger(
    EngineTestLedger1.transactions[5 := Transaction(5, 2, 50000, TransactionState.Chargeback)],
    EngineTestLedger1.clients[2 := Client(2, 20000, 0, true)])

  const EngineTestLedger4 := Ledger(
    EngineTestLedger3.transactions[7 := Transaction(7, 2, 10000, Resolved)],
    EngineTestLedger3.clients[2 := Client(2, 30000, 0, true)])

  const EngineTestLedger5 := Ledger(
    EngineTestLedger4.transactions[19 := Transaction(19, 50, 79228162514264337510000, Resolved)],
    EngineTestLedger4.clients[50 := Client(50, 79228162514264338015555, 0, false)])

  /** Duplicate ids are dropped, and a first withdrawal opens no account. */
  lemma EngineTestStretch0()
    ensures Replay(EmptyLedger, EngineTestOps0) == EngineTestLedger0
  {
  }

  lemma EngineTestStretch1()
    ensures Replay(EngineTestLedger0, EngineTestOps1) == EngineTestLedger1
  {
  }

  /** A chargeback of a resolved transaction is rejected; a dispute holds the amount. */
  lemma EngineTestChargebackThenDispute()
    ensures Replay(EngineTestLedger2b, ChargebackThenDispute) == EngineTestLedger2
  {
  }

  /** The deposit of tx 5 opens nothing new: client 2 already has an account. */
  lemma EngineTestStretch2()
    ensures Replay(EngineTestLedger1, EngineTestOps2) == EngineTestLedger2
  {
    var deposit := [Created(5, 2, 50000)];
    assert Replay(EngineTestLedger1, deposit) == EngineTestLedger2b;
    EngineTestChargebackThenDispute();
    ReplayAppend(EngineTestLedger1, deposit, ChargebackThenDispute);
  }

  /** A second dispute is rejected; the resolve releases what the dispute held. */
  lemma EngineTestStretch2b()
    ensures Replay(EngineTestLedger2, EngineTestOps2b) == EngineTestLedger2b
  {
  }

  /** A dispute then chargeback takes the amount off and locks the account; a later resolve is rejected. */
  lemma EngineTestStretch3()
    ensures Replay(EngineTestLedger2b, EngineTestOps3) == EngineTestLedger3
  {
    var settle := [Modify(5, 2, TransactionState.Chargeback), Modify(5, 2, Resolved)];
    assert Replay(EngineTestLedger2, settle) == EngineTestLedger3;
    EngineTestChargebackThenDispute();
    ReplayAppend(EngineTestLedger2b, ChargebackThenDispute, settle);
  }

  /** A locked account cannot withdraw but can deposit; a dispute naming another client is rejected. */
  lemma EngineTestStretch4()
    ensures Replay(EngineTestLedger3, EngineTestOps4) == EngineTestLedger4
  {
  }

  /** A withdrawal beyond the available funds is rejected; a very large deposit is accepted. */
  lemma EngineTestStretch5()
    ensures Replay(EngineTestLedger4, EngineTestOps5) == EngineTestLedger5
  {
  }

  lemma EngineTestRun()
    ensures Replay(EmptyLedger, ValidRecords(EngineTestInput())) == EngineTestLedger5
  {
    EngineTestRecords();
    EngineTestStretch0();
    EngineTestStretch1();
    EngineTestStretch2();
    EngineTestStretch2b();
    EngineTestStretch3();
    EngineTestStretch4();
    EngineTestStretch5();
    var o0, o1, o2, o3, o4, o5 := EngineTestOps0, EngineTestOps1, EngineTestOps2 + EngineTestOps2b, EngineTestOps3, EngineTestOps4, EngineTestOps5;
    ReplayAppend(EngineTestLedger1, EngineTestOps2, EngineTestOps2b);
    ReplayAppend(EmptyLedger, o0 + o1 + o2 + o3 + o4, o5);
    ReplayAppend(EmptyLedger, o0 + o1 + o2 + o3, o4);
    ReplayAppend(EmptyLedger, o0 + o1 + o2, o3);
    ReplayAppend(EmptyLedger, o0 + o1, o2);
    ReplayAppend(EmptyLedger, o0, o1);
  }

  /** The client table at the end of the engine test. */
  lemma EngineTestClients()
    ensures Replay(EmptyLedger, ValidRecords(EngineTestInput())).clients == map[
      1 := Client(1, 10000, 0, false),
      2 := Client(2, 30000, 0, true),
      3 := Client(3, 20000, 0, false),
      50 := Client(50, 79228162514264338015555, 0, false)]
  {
    EngineTestRun();
  }
}
