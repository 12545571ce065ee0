/**
 * The ledger engine: two maps, transactions by id and clients by id, and one
 * entry point that applies an operation or rejects it without changing
 * anything.
 *
 * `Step` is the engine's behaviour as a function of the ledger it starts
 * from; the class `TransactionEngine` holds the two maps as fields and its
 * `Apply` updates them in place, proved to agree with `Step`.
 */
module Engine {
  import opened Wrappers
  import opened LedgerTypes
  import opened LedgerSums

  /** The engine's state: every transaction ever created and every client account. */
  datatype Ledger = Ledger(transactions: map<TxId, Transaction>, clients: map<ClientId, Client>)

  /** Whether an operation was applied, and the ledger after it. */
  datatype Outcome = Outcome(applied: bool, ledger: Ledger)

  const EmptyLedger := Ledger(map[], map[])

  /**
   * Structure every reachable ledger has: each transaction is stored under its
   * own id and its owner has an account, each account is stored under its own
   * id, and the held balance is within range.
   */
  ghost predicate WellFormed(s: Ledger) {
    && (forall k :: k in s.transactions ==> s.transactions[k].tx == k && s.transactions[k].client in s.clients)
    && (forall c :: c in s.clients ==> s.clients[c].client == c && InRange(s.clients[c].held))
  }

  /**
   * The balances agree with the transactions: a client's total is the sum of
   * its transactions that were not charged back, its held balance the sum of
   * those under dispute, and it is locked exactly when one of its
   * transactions has been charged back.
   */
  ghost predicate Balanced(s: Ledger) {
    forall c :: c in s.clients ==> ClientBalanced(s, c)
  }

  /** The balances of client `c` agree with its transactions. */
  ghost predicate ClientBalanced(s: Ledger, c: ClientId)
    requires c in s.clients
  {
    && s.clients[c].total == SumShares(s.transactions, c, InTotal)
    && s.clients[c].held == SumShares(s.transactions, c, InHeld)
    && (s.clients[c].locked <==> HasChargeback(s.transactions, c))
  }

  /** The moves the dispute lifecycle allows. */
  predicate Transition(from: TransactionState, to: TransactionState) {
    || (from == Resolved && to == Disputed)
    || (from == Disputed && to == Resolved)
    || (from == Disputed && to == Chargeback)
  }

  function Reject(s: Ledger): Outcome {
    Outcome(false, s)
  }

  /** Applies creation `t`: a new transaction id, and a deposit or a covered withdrawal. */
  function StepNew(s: Ledger, t: Transaction): Outcome {
    if t.tx in s.transactions then Reject(s)
    else if t.client !in s.clients then
      if t.amount < 0 then Reject(s)
      else Outcome(true, Ledger(s.transactions[t.tx := t], s.clients[t.client := NewClient(t.client, t.amount)]))
    else
      var c := s.clients[t.client];
      if c.locked && t.amount < 0 then Reject(s)
      else
        match CheckedAdd(c.Available(), t.amount)
        case None => Reject(s)
        case Some(available) =>
          if available < 0 then Reject(s)
          else
            match CheckedAdd(c.total, t.amount)
            case None => Reject(s)
            case Some(total) =>
              if total < 0 then Reject(s)
              else Outcome(true, Ledger(s.transactions[t.tx := t], s.clients[t.client := c.(total := total)]))
  }

  /** Applies modifier `m`: one move of the dispute lifecycle on a stored transaction. */
  function StepMod(s: Ledger, m: TransactionMod): Outcome {
    if m.tx !in s.transactions then Reject(s)
    else
      var t := s.transactions[m.tx];
      if t.client != m.client || t.client !in s.clients then Reject(s)
      else
        var c := s.clients[t.client];
        var txs := s.transactions[m.tx := t.(state := m.state)];
        match m.state
        case Disputed =>
          if t.state != Resolved then Reject(s)
          else
            (match CheckedAdd(c.held, t.amount)
             case None => Reject(s)
             case Some(held) => Outcome(true, Ledger(txs, s.clients[t.client := c.(held := held)])))
        case Resolved =>
          if t.state != Disputed then Reject(s)
          else
            (match CheckedSub(c.held, t.amount)
             case None => Reject(s)
             case Some(held) => Outcome(true, Ledger(txs, s.clients[t.client := c.(held := held)])))
        case Chargeback =>
          if t.state != Disputed then Reject(s)
          else
            match (CheckedSub(c.held, t.amount), CheckedSub(c.total, t.amount))
            case (Some(held), Some(total)) =>
              Outcome(true, Ledger(txs, s.clients[t.client := c.(held := held, total := total, locked := true)]))
            case _ => Reject(s)
  }

  /**
   * Applies one operation. A rejection leaves the ledger exactly as it was;
   * an applied operation never forgets a transaction or a client, never
   * changes a transaction's owner or amount, never touches a charged-back
   * transaction and never unlocks an account.
   */
  function Step(s: Ledger, op: TransactionRow): (o: Outcome)
    ensures !o.applied ==> o.ledger == s
    ensures forall k :: k in s.transactions ==>
      && k in o.ledger.transactions
      && o.ledger.transactions[k].client == s.transactions[k].client
      && o.ledger.transactions[k].amount == s.transactions[k].amount
      && (s.transactions[k].state == Chargeback ==> o.ledger.transactions[k] == s.transactions[k])
    ensures forall c :: c in s.clients ==> c in o.ledger.clients && (s.clients[c].locked ==> o.ledger.clients[c].locked)
  {
    match op
    case New(t) => StepNew(s, t)
    case Mod(m) => StepMod(s, m)
  }

  /** A creation whose id is already taken is dropped and changes nothing. */
  lemma DuplicateIdRejected(s: Ledger, t: Transaction)
    requires t.tx in s.transactions
    ensures Step(s, New(t)) == Reject(s)
  {
  }

  /**
   * A client's first operation must not be a withdrawal; a first deposit opens
   * the account with that total, nothing held, unlocked.
   */
  lemma FirstOperationOpensAccount(s: Ledger, t: Transaction)
    requires t.tx !in s.transactions && t.client !in s.clients
    ensures var o := Step(s, New(t));
      && (o.applied <==> t.amount >= 0)
      && (!o.applied ==> t.client !in o.ledger.clients)
      && (o.applied ==> o.ledger == Ledger(s.transactions[t.tx := t], s.clients[t.client := NewClient(t.client, t.amount)]))
  {
  }

  /**
   * For an existing account a locked client cannot withdraw (deposits still
   * go through), and the amount must keep both the available balance and the
   * total in range and non-negative; only the total changes.
   */
  lemma CreationOnExistingAccount(s: Ledger, t: Transaction)
    requires t.tx !in s.transactions && t.client in s.clients
    ensures var o := Step(s, New(t));
      var c := s.clients[t.client];
      && (o.applied <==>
            && !(c.locked && t.amount < 0)
            && InRange(c.Available() + t.amount) && c.Available() + t.amount >= 0
            && InRange(c.total + t.amount) && c.total + t.amount >= 0)
      && (o.applied ==> o.ledger == Ledger(s.transactions[t.tx := t], s.clients[t.client := c.(total := c.total + t.amount)]))
  {
  }

  /** A modifier for an unknown transaction, or naming another client than its owner, is rejected. */
  lemma ModOfUnknownOrForeignRejected(s: Ledger, m: TransactionMod)
    requires m.tx !in s.transactions || s.transactions[m.tx].client != m.client
    ensures Step(s, Mod(m)) == Reject(s)
  {
  }

  /**
   * A modifier on a transaction of its own client is applied exactly when the
   * lifecycle allows the move and the balance arithmetic stays in range, and
   * then moves the transaction and adjusts the client: a dispute holds the
   * amount, a resolve releases it, a chargeback releases it, takes it off the
   * total and locks the account.
   */
  lemma ModMovesLifecycle(s: Ledger, m: TransactionMod)
    requires WellFormed(s)
    requires m.tx in s.transactions && s.transactions[m.tx].client == m.client
    ensures var o := Step(s, Mod(m));
      var t := s.transactions[m.tx];
      var c := s.clients[t.client];
      var txs := s.transactions[m.tx := t.(state := m.state)];
      && (o.applied ==> Transition(t.state, m.state))
      && (m.state == Disputed ==>
            && (o.applied <==> t.state == Resolved && InRange(c.held + t.amount))
            && (o.applied ==> o.ledger == Ledger(txs, s.clients[t.client := c.(held := c.held + t.amount)])))
      && (m.state == Resolved ==>
            && (o.applied <==> t.state == Disputed && InRange(c.held - t.amount))
            && (o.applied ==> o.ledger == Ledger(txs, s.clients[t.client := c.(held := c.held - t.amount)])))
      && (m.state == Chargeback ==>
            && (o.applied <==> t.state == Disputed && InRange(c.held - t.amount) && InRange(c.total - t.amount))
            && (o.applied ==> o.ledger == Ledger(txs, s.clients[t.client := c.(held := c.held - t.amount, total := c.total - t.amount, locked := true)])))
  {
  }

  /** Once charged back, a transaction accepts no further modifier. */
  lemma ChargebackIsTerminal(s: Ledger, m: TransactionMod)
    requires m.tx in s.transactions && s.transactions[m.tx].state == Chargeback
    ensures Step(s, Mod(m)) == Reject(s)
  {
  }

  /** The same dispute twice in a row holds the amount once: the second is rejected. */
  lemma DisputeTwiceHoldsOnce(s: Ledger, m: TransactionMod)
    requires m.state == Disputed && Step(s, Mod(m)).applied
    ensures Step(Step(s, Mod(m)).ledger, Mod(m)) == Reject(Step(s, Mod(m)).ledger)
  {
  }

  /** A resolve undoes the dispute just before it: the ledger is as it was before the dispute. */
  lemma ResolveUndoesDispute(s: Ledger, tx: TxId, client: ClientId)
    requires WellFormed(s)
    requires Step(s, Mod(TransactionMod(tx, client, Disputed))).applied
    ensures Step(Step(s, Mod(TransactionMod(tx, client, Disputed))).ledger, Mod(TransactionMod(tx, client, Resolved))) == Outcome(true, s)
  {
    var t := s.transactions[tx];
    var c := s.clients[t.client];
    assert s.transactions[tx := t.(state := Disputed)][tx := t] == s.transactions;
    assert s.clients[t.client := c.(held := c.held + t.amount)][t.client := c] == s.clients;
  }

  /**
   * Disputing a withdrawal makes the held balance more negative, so the
   * available balance `total - held` grows by the withdrawn amount without any
   * range check: from an available balance at the bound it leaves the range.
   */
  lemma DisputedWithdrawalRaisesAvailable(s: Ledger, m: TransactionMod)
    requires m.state == Disputed && m.tx in s.transactions && s.transactions[m.tx].amount < 0
    requires Step(s, Mod(m)).applied
    ensures var c := s.transactions[m.tx].client;
      var o := Step(s, Mod(m)).ledger;
      && c in s.clients && c in o.clients
      && o.clients[c].total == s.clients[c].total
      && o.clients[c].Available() == s.clients[c].Available() - s.transactions[m.tx].amount
      && (s.clients[c].Available() == MaxMagnitude ==> !InRange(o.clients[c].Available()))
  {
    ModApplied(s, m);
  }

  /** Every step keeps the ledger well formed. */
  lemma StepKeepsWellFormed(s: Ledger, op: TransactionRow)
    requires WellFormed(s)
    ensures WellFormed(Step(s, op).ledger)
  {
  }

  /** What a balance portion of client `c` sums to after replacing (or adding) transaction `k`. */
  lemma SharesAfterPut(txs: map<TxId, Transaction>, k: TxId, t: Transaction, c: ClientId, p: Portion)
    ensures SumShares(txs[k := t], c, p)
         == SumShares(txs, c, p) - (if k in txs then Share(txs[k], c, p) else 0) + Share(t, c, p)
  {
    if k in txs {
      SumUpdate(txs, k, t, c, p);
    } else {
      SumInsert(txs, k, t, c, p);
    }
  }

  /**
   * Putting `t` under id `k` keeps client `c` balanced when its account moves
   * by exactly the shares `t` replaces, and it becomes locked exactly when `t`
   * is a chargeback of its own.
   */
  lemma PutKeepsClientBalanced(s: Ledger, o: Ledger, k: TxId, t: Transaction, c: ClientId)
    requires c in s.clients && c in o.clients && ClientBalanced(s, c)
    requires o.transactions == s.transactions[k := t]
    requires k in s.transactions ==> !(s.transactions[k].client == c && s.transactions[k].state == Chargeback)
    requires o.clients[c].total
          == s.clients[c].total - (if k in s.transactions then Share(s.transactions[k], c, InTotal) else 0) + Share(t, c, InTotal)
    requires o.clients[c].held
          == s.clients[c].held - (if k in s.transactions then Share(s.transactions[k], c, InHeld) else 0) + Share(t, c, InHeld)
    requires o.clients[c].locked == (s.clients[c].locked || (t.client == c && t.state == Chargeback))
    ensures ClientBalanced(o, c)
  {
    SharesAfterPut(s.transactions, k, t, c, InTotal);
    SharesAfterPut(s.transactions, k, t, c, InHeld);
    ChargebackAfterPut(s.transactions, k, t, c);
  }

  lemma NewKeepsClientBalanced(s: Ledger, t: Transaction, c: ClientId)
    requires WellFormed(s) && Balanced(s) && t.state == Resolved
    requires StepNew(s, t).applied && c in StepNew(s, t).ledger.clients
    ensures ClientBalanced(StepNew(s, t).ledger, c)
  {
    var o := StepNew(s, t).ledger;
    if c == t.client && t.client !in s.clients {
      SharesAfterPut(s.transactions, t.tx, t, c, InTotal);
      SharesAfterPut(s.transactions, t.tx, t, c, InHeld);
      ChargebackAfterPut(s.transactions, t.tx, t, c);
      SumNoShare(s.transactions, c, InTotal);
      SumNoShare(s.transactions, c, InHeld);
    } else {
      assert ClientBalanced(s, c);
      PutKeepsClientBalanced(s, o, t.tx, t, c);
    }
  }

  lemma NewKeepsBalanced(s: Ledger, t: Transaction)
    requires WellFormed(s) && Balanced(s) && t.state == Resolved
    ensures Balanced(StepNew(s, t).ledger)
  {
    if StepNew(s, t).applied {
      forall c | c in StepNew(s, t).ledger.clients
        ensures ClientBalanced(StepNew(s, t).ledger, c)
      {
        NewKeepsClientBalanced(s, t, c);
      }
    }
  }

  /** What an applied modifier did: one lifecycle move, and the owner's balances moved by the amount. */
  lemma ModApplied(s: Ledger, m: TransactionMod)
    requires StepMod(s, m).applied
    ensures m.tx in s.transactions && s.transactions[m.tx].client in s.clients
    ensures var o := StepMod(s, m).ledger;
            var t := s.transactions[m.tx];
            var a := s.clients[t.client];
            var a' := o.clients[t.client];
            && Transition(t.state, m.state)
            && o.transactions == s.transactions[m.tx := t.(state := m.state)]
            && o.clients == s.clients[t.client := a']
            && a'.held == a.held + (if m.state == Disputed then t.amount else -t.amount)
            && a'.total == a.total - (if m.state == Chargeback then t.amount else 0)
            && a'.locked == (a.locked || m.state == Chargeback)
  {
  }

  lemma ModKeepsBalanced(s: Ledger, m: TransactionMod)
    requires WellFormed(s) && Balanced(s)
    ensures Balanced(StepMod(s, m).ledger)
  {
    if StepMod(s, m).applied {
      ModApplied(s, m);
      var o := StepMod(s, m).ledger;
      var t := s.transactions[m.tx];
      forall c | c in o.clients
        ensures ClientBalanced(o, c)
      {
        assert ClientBalanced(s, c);
        PutKeepsClientBalanced(s, o, m.tx, t.(state := m.state), c);
      }
    }
  }

  /**
   * Every operation the reader can produce keeps the balances in agreement
   * with the transactions.
   */
  lemma StepKeepsBalanced(s: Ledger, op: TransactionRow)
    requires WellFormed(s) && Balanced(s) && Normalised(op)
    ensures Balanced(Step(s, op).ledger)
  {
    match op
    case New(t) => NewKeepsBalanced(s, t);
    case Mod(m) => ModKeepsBalanced(s, m);
  }

  /** In a balanced ledger a client's available funds are its resolved transactions. */
  lemma AvailableIsResolvedFunds(s: Ledger, c: ClientId)
    requires Balanced(s) && c in s.clients
    ensures s.clients[c].Available() == SumShares(s.transactions, c, InAvailable)
  {
    SumAvailable(s.transactions, c);
  }

  /** The engine: the two maps, updated in place by Apply. */
  class TransactionEngine {
    var transactions: map<TxId, Transaction>
    var clients: map<ClientId, Client>

    function State(): Ledger
      reads this
    {
      Ledger(transactions, clients)
    }

    ghost predicate Valid()
      reads this
    {
      WellFormed(State())
    }

    /** An engine with no transactions and no clients. */
    constructor ()
      ensures Valid() && State() == EmptyLedger
    {
      transactions := map[];
      clients := map[];
    }

    /**
     * Applies one operation; returns false, with both maps unchanged, when it
     * is rejected.
     */
    method Apply(op: TransactionRow) returns (ok: bool)
      requires Valid()
      modifies this
      ensures Valid()
      ensures ok == Step(old(State()), op).applied
      ensures State() == Step(old(State()), op).ledger
      ensures !ok ==> transactions == old(transactions) && clients == old(clients)
    {
      StepKeepsWellFormed(State(), op);
      match op {
        case New(t) =>
          if t.tx in transactions {
            return false;
          }
          if t.client !in clients {
            if t.amount < 0 {
              return false;
            }
            clients := clients[t.client := NewClient(t.client, t.amount)];
          } else {
            var client := clients[t.client];
            if client.locked && t.amount < 0 {
              return false;
            }
            var available := CheckedAdd(client.Available(), t.amount);
            if available.None? || available.value < 0 {
              return false;
            }
            var total := CheckedAdd(client.total, t.amount);
            if total.None? || total.value < 0 {
              return false;
            }
            clients := clients[t.client := client.(total := total.value)];
          }
          transactions := transactions[t.tx := t];
          return true;
        case Mod(m) =>
          if m.tx !in transactions {
            return false;
          }
          var orig := transactions[m.tx];
          if orig.client != m.client {
            return false;
          }
          var client := clients[orig.client];
          match m.state {
            case Disputed =>
              if orig.state != Resolved {
                return false;
              }
              var held := CheckedAdd(client.held, orig.amount);
              if held.None? {
                return false;
              }
              client := client.(held := held.value);
            case Resolved =>
              if orig.state != Disputed {
                return false;
              }
              var held := CheckedSub(client.held, orig.amount);
              if held.None? {
                return false;
              }
              client := client.(held := held.value);
            case Chargeback =>
              if orig.state != Disputed {
                return false;
              }
              var held := CheckedSub(client.held, orig.amount);
              var total := CheckedSub(client.total, orig.amount);
              if held.None? || total.None? {
                return false;
              }
              client := client.(held := held.value, total := total.value, locked := true);
          }
          clients := clients[orig.client := client];
          transactions := transactions[m.tx := orig.(state := m.state)];
          return true;
      }
    }

    /** The client records, one per account, each under its own id. */
    function Clients(): (r: set<Client>)
      reads this
      requires Valid()
      ensures forall c :: c in r <==> c.client in clients && clients[c.client] == c
    {
      clients.Values
    }
  }
}
