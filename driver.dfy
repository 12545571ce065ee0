/**
 * The run: read the records, keep the valid ones, and apply each to one
 * engine in input order. `Replay` is that fold as a function; `RunLedger` is
 * the loop itself over a reader and an engine.
 */
module Driver {
  import opened Wrappers
  import opened LedgerTypes
  import opened TransactionReader
  import opened Engine

  /**
   * The ledger after applying `ops` one at a time, in order, starting from `s`.
   * No run forgets a transaction or a client.
   */
  function Replay(s: Ledger, ops: seq<TransactionRow>): (r: Ledger)
    ensures s.transactions.Keys <= r.transactions.Keys && s.clients.Keys <= r.clients.Keys
    decreases |ops|
  {
    if ops == [] then s else Replay(Step(s, ops[0]).ledger, ops[1..])
  }

  /** Replaying two stretches of the stream is replaying the first, then the second from where it left off. */
  lemma {:induction false} ReplayAppend(s: Ledger, a: seq<TransactionRow>, b: seq<TransactionRow>)
    ensures Replay(s, a + b) == Replay(Replay(s, a), b)
    decreases |a|
  {
    if a == [] {
      assert a + b == b;
    } else {
      assert (a + b)[0] == a[0];
      assert (a + b)[1..] == a[1..] + b;
      ReplayAppend(Step(s, a[0]).ledger, a[1..], b);
    }
  }

  /** Replaying operations the reader produced keeps the ledger well formed and its balances agreeing with its transactions. */
  lemma {:induction false} ReplayKeepsInvariants(s: Ledger, ops: seq<TransactionRow>)
    requires WellFormed(s) && Balanced(s)
    requires forall j :: 0 <= j < |ops| ==> Normalised(ops[j])
    ensures WellFormed(Replay(s, ops)) && Balanced(Replay(s, ops))
    decreases |ops|
  {
    if ops != [] {
      StepKeepsWellFormed(s, ops[0]);
      StepKeepsBalanced(s, ops[0]);
      ReplayKeepsInvariants(Step(s, ops[0]).ledger, ops[1..]);
    }
  }

  /** A charged-back transaction stays exactly as it is for the rest of the run. */
  lemma {:induction false} ChargebackIsFinalForRun(s: Ledger, ops: seq<TransactionRow>, k: TxId)
    requires k in s.transactions && s.transactions[k].state == TransactionState.Chargeback
    ensures k in Replay(s, ops).transactions && Replay(s, ops).transactions[k] == s.transactions[k]
    decreases |ops|
  {
    if ops != [] {
      ChargebackIsFinalForRun(Step(s, ops[0]).ledger, ops[1..], k);
    }
  }

  /** A locked account stays locked for the rest of the run. */
  lemma {:induction false} LockedForRestOfRun(s: Ledger, ops: seq<TransactionRow>, c: ClientId)
    requires c in s.clients && s.clients[c].locked
    ensures c in Replay(s, ops).clients && Replay(s, ops).clients[c].locked
    decreases |ops|
  {
    if ops != [] {
      LockedForRestOfRun(Step(s, ops[0]).ledger, ops[1..], c);
    }
  }

  /**
   * Reads every record and applies each valid one to a fresh engine, in input
   * order and exactly once.
   */
  method RunLedger(records: seq<Record>) returns (engine: TransactionEngine)
    ensures fresh(engine) && engine.Valid()
    ensures engine.State() == Replay(EmptyLedger, ValidRecords(records))
    ensures Balanced(engine.State())
  {
    var reader := new ValidRecordsIter(records);
    engine := new TransactionEngine();
    assert reader.Remaining() == records;
    while true
      invariant fresh(reader) && fresh(engine)
      invariant reader.Valid() && reader.records == records
      invariant engine.Valid() && Balanced(engine.State())
      invariant Replay(EmptyLedger, ValidRecords(records)) == Replay(engine.State(), ValidRecords(reader.Remaining()))
      decreases |records| - reader.pos
    {
      ghost var before, remaining := engine.State(), reader.Remaining();
      var op := reader.Next();
      if op.None? {
        break;
      }
      assert Normalised(ValidRecords(remaining)[0]);
      var _ := engine.Apply(op.value);
      StepKeepsBalanced(before, op.value);
    }
    assert reader.Remaining() == [];
  }
}
