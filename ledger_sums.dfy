/**
 * What a client's balances should be, computed from the transaction map: the
 * total is the sum of its transactions that were not charged back, the held
 * part the sum of those under dispute, and the available part the sum of the
 * resolved ones.
 */
module LedgerSums {
  import opened LedgerTypes

  /** Which transactions of a client a balance adds up. */
  datatype Portion = InTotal | InHeld | InAvailable

  /** What transaction `t` contributes to portion `p` of client `c`'s balance. */
  function Share(t: Transaction, c: ClientId, p: Portion): int {
    if t.client != c then 0
    else
      match p
      case InTotal => if t.state != Chargeback then t.amount else 0
      case InHeld => if t.state == Disputed then t.amount else 0
      case InAvailable => if t.state == Resolved then t.amount else 0
  }

  /** The sum of Share over every transaction in `txs`. */
  ghost function SumShares(txs: map<TxId, Transaction>, c: ClientId, p: Portion): int
    decreases |txs|
  {
    if txs == map[] then 0
    else
      var k :| k in txs;
      assert |txs - {k}| < |txs| by {
        assert (txs - {k}).Keys == txs.Keys - {k};
      }
      Share(txs[k], c, p) + SumShares(txs - {k}, c, p)
  }

  /** Some transaction of client `c` has been charged back. */
  ghost predicate HasChargeback(txs: map<TxId, Transaction>, c: ClientId) {
    exists k :: k in txs && txs[k].client == c && txs[k].state == Chargeback
  }

  /** Any one transaction can be taken out of the sum first. */
  lemma {:induction false} SumRemove(txs: map<TxId, Transaction>, k: TxId, c: ClientId, p: Portion)
    requires k in txs
    ensures SumShares(txs, c, p) == Share(txs[k], c, p) + SumShares(txs - {k}, c, p)
    decreases |txs|
  {
    var j :| j in txs && SumShares(txs, c, p) == Share(txs[j], c, p) + SumShares(txs - {j}, c, p);
    if j != k {
      var both := txs - {j} - {k};
      assert |txs - {j}| < |txs| by {
        assert (txs - {j}).Keys == txs.Keys - {j};
      }
      assert |txs - {k}| < |txs| by {
        assert (txs - {k}).Keys == txs.Keys - {k};
      }
      SumRemove(txs - {j}, k, c, p);
      SumRemove(txs - {k}, j, c, p);
      assert txs - {k} - {j} == both;
    }
  }

  /** Adding a transaction under a fresh id adds its share. */
  lemma SumInsert(txs: map<TxId, Transaction>, k: TxId, t: Transaction, c: ClientId, p: Portion)
    requires k !in txs
    ensures SumShares(txs[k := t], c, p) == SumShares(txs, c, p) + Share(t, c, p)
  {
    SumRemove(txs[k := t], k, c, p);
    assert txs[k := t] - {k} == txs;
  }

  /** Replacing a stored transaction swaps its old share for its new one. */
  lemma SumUpdate(txs: map<TxId, Transaction>, k: TxId, t: Transaction, c: ClientId, p: Portion)
    requires k in txs
    ensures SumShares(txs[k := t], c, p) == SumShares(txs, c, p) - Share(txs[k], c, p) + Share(t, c, p)
  {
    SumRemove(txs[k := t], k, c, p);
    SumRemove(txs, k, c, p);
    assert txs[k := t] - {k} == txs - {k};
  }

  /** A client that owns no transaction has nothing in any portion. */
  lemma {:induction false} SumNoShare(txs: map<TxId, Transaction>, c: ClientId, p: Portion)
    requires forall k :: k in txs ==> txs[k].client != c
    ensures SumShares(txs, c, p) == 0
    decreases |txs|
  {
    if txs != map[] {
      var k :| k in txs;
      assert |txs - {k}| < |txs| by {
        assert (txs - {k}).Keys == txs.Keys - {k};
      }
      SumRemove(txs, k, c, p);
      SumNoShare(txs - {k}, c, p);
    }
  }

  /** What is not held out of the total is exactly the resolved transactions. */
  lemma {:induction false} SumAvailable(txs: map<TxId, Transaction>, c: ClientId)
    ensures SumShares(txs, c, InTotal) - SumShares(txs, c, InHeld) == SumShares(txs, c, InAvailable)
    decreases |txs|
  {
    if txs != map[] {
      var k :| k in txs;
      assert |txs - {k}| < |txs| by {
        assert (txs - {k}).Keys == txs.Keys - {k};
      }
      SumRemove(txs, k, c, InTotal);
      SumRemove(txs, k, c, InHeld);
      SumRemove(txs, k, c, InAvailable);
      SumAvailable(txs - {k}, c);
    }
  }

  /**
   * Putting transaction `t` under id `k`, where no charged-back transaction of
   * `c` was stored, makes `c` have a chargeback exactly when it had one or `t`
   * is one.
   */
  lemma ChargebackAfterPut(txs: map<TxId, Transaction>, k: TxId, t: Transaction, c: ClientId)
    requires k in txs ==> !(txs[k].client == c && txs[k].state == Chargeback)
    ensures HasChargeback(txs[k := t], c) <==> HasChargeback(txs, c) || (t.client == c && t.state == Chargeback)
  {
    var txs' := txs[k := t];
    if HasChargeback(txs, c) {
      var j :| j in txs && txs[j].client == c && txs[j].state == Chargeback;
      assert j != k && txs'[j] == txs[j];
    }
    if t.client == c && t.state == Chargeback {
      assert k in txs' && txs'[k] == t;
    } else if HasChargeback(txs', c) {
      var j :| j in txs' && txs'[j].client == c && txs'[j].state == Chargeback;
      assert j != k && txs'[j] == txs[j];
    }
  }
}
