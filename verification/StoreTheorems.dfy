/**
 * The services refine the machine: whatever calls of the service methods have made of
 * a store, the store is a state of one of the machine's runs, and the machine's
 * theorems hold of its fields.
 */
module StoreTheorems {
  import opened Common
  import opened Ledger
  import opened EscrowTables
  import opened EscrowInvariant
  import opened EscrowProtocol
  import opened EscrowTheorems
  import opened Persistence

  /** A store's ledger balances, and each of its six account balances is the closed form of its rows. */
  lemma StoreReconciles(db: Database, a: Account, scope: Scope, currency: string)
    requires db.Valid()
    ensures Measure(db.ledger, Balance(a, scope)) == RowBalance(db.Contents(), a, scope) + AdjustedTotal(db.Contents(), a, scope)
    ensures Sum(db.ledger, DebitIn(currency)) == Sum(db.ledger, CreditIn(currency))
  {
    hide Run;
    var n := |db.trace| - 1;
    SixBalances(db.fsm, db.trace, n, scope);
    TrialBalance(db.fsm, db.trace, n, n, currency);
  }

  /** However often its events were delivered and its jobs run, each row of a store was posted exactly once or not at all. */
  lemma StorePostsOnce(db: Database, row: nat)
    requires db.Valid()
    ensures Measure(db.ledger, CapturePosts(row)) == if row < |db.payments| && IsCaptured(db.payments[row].status) then 1 else 0
    ensures Measure(db.ledger, SplitPosts(row)) == if row < |db.payouts| then 1 else 0
    ensures Measure(db.ledger, SettlePosts(row)) == if row < |db.payouts| && db.payouts[row].status == PayoutStatus.Paid then 1 else 0
  {
    hide Run;
    PostedExactlyOnce(db.fsm, db.trace, |db.trace| - 1, row);
  }

  /** Between two moments of a store the ledger only grew and neither a PAID payout nor a capture was undone. */
  lemma StoreMovesForward(db: Database, earlier: nat)
    requires db.Valid() && earlier < |db.trace|
    ensures db.trace[earlier].db.ledger <= db.ledger
    ensures forall q :: 0 <= q < |db.trace[earlier].db.payouts| && db.trace[earlier].db.payouts[q].status == PayoutStatus.Paid ==>
      q < |db.payouts| && db.payouts[q].status == PayoutStatus.Paid
    ensures forall p :: 0 <= p < |db.trace[earlier].db.payments| && IsCaptured(db.trace[earlier].db.payments[p].status) ==>
      p < |db.payments| && IsCaptured(db.payments[p].status)
  {
    hide Run;
    var n := |db.trace| - 1;
    TrialBalance(db.fsm, db.trace, earlier, n, "");
    forall q: nat | q < |db.trace[earlier].db.payouts| && db.trace[earlier].db.payouts[q].status == PayoutStatus.Paid
      ensures q < |db.payouts| && db.payouts[q].status == PayoutStatus.Paid
    {
      MoneyFactsAreFinal(db.fsm, db.trace, earlier, n, q);
    }
    forall p: nat | p < |db.trace[earlier].db.payments| && IsCaptured(db.trace[earlier].db.payments[p].status)
      ensures p < |db.payments| && IsCaptured(db.payments[p].status)
    {
      MoneyFactsAreFinal(db.fsm, db.trace, earlier, n, p);
    }
  }
}
