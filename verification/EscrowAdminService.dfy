/** Manual interventions: a compensating ledger entry, and holding, releasing or retrying a payout. */
module EscrowAdminServices {
  import opened Common
  import opened Ledger
  import opened EscrowTables
  import opened EscrowProtocol
  import opened EscrowInvariant
  import opened EscrowSteps
  import opened EscrowTheorems
  import opened EscrowTransactions
  import opened Persistence
  import opened Repositories

  datatype AdminError = ValidationFailed | PostingFailed

  /** An amount, between two accounts, in a currency of three capital letters. */
  predicate Admissible(a: Adjustment) {
    a.from != a.to && a.amount > 0 && |a.currency| == 3 && forall k :: 0 <= k < 3 ==> 'A' <= a.currency[k] <= 'Z'
  }

  class EscrowAdminService {
    const db: Database
    const ledger: LedgerService
    const payouts: PayoutRepository

    constructor (db: Database)
      ensures this.db == db && Wired()
    {
      this.db := db;
      ledger := new LedgerService(db);
      payouts := new PayoutRepository(db);
    }

    predicate Wired() {
      ledger.db == db && payouts.db == db
    }

    /** An admissible adjustment is recorded and posted, out of one account and into the other, and never fails; any other changes nothing. */
    method Adjust(a: Adjustment) returns (r: Result<(), AdminError>)
      requires Wired() && db.Valid()
      modifies db`payments, db`refunds, db`payouts, db`ledger, db`adjustments, db`trace
      ensures db.Valid() && old(db.trace) <= db.trace
      ensures r == if Admissible(a) then Success(()) else Failure(ValidationFailed)
      ensures
        var g := |old(db.ledger)|;
        db.Contents() ==
          if r.Failure? then old(db.Contents())
          else old(db.Contents()).(
            adjustments := old(db.adjustments) + [a],
            ledger := old(db.ledger) + [
              Entry(g, a.currency, Leg(a.from, Debit, a.amount, a.bookingId, None, None)),
              Entry(g, a.currency, Leg(a.to, Credit, a.amount, a.bookingId, None, None))])
    {
      hide Run, Next;
      if a.from == a.to || a.amount <= 0 || !CurrencyCode(a.currency) {
        return Failure(ValidationFailed);
      }
      RunInv(db.fsm, db.trace, |db.trace| - 1);
      AdjustByColumns(db.Contents(), a);
      hide RowsOk, EscrowTables.Adjust;
      r := AdjustTransaction(a);
      AdjustStep(db.fsm, old(db.Last()), a);
      db.Log(AdminAdjust(a));
    }

    /** The record of the adjustment and its pair of entries: both or neither. */
    method AdjustTransaction(a: Adjustment) returns (r: Result<(), AdminError>)
      requires Wired() && AdjustmentValid(a)
      modifies db`payments, db`refunds, db`payouts, db`ledger, db`adjustments
      ensures match EscrowTables.Adjust(old(db.Contents()), a)
              case Committed(tables, _) => r == Success(()) && db.Contents() == tables
              case RolledBack => r == Failure(PostingFailed) && db.Contents() == old(db.Contents())
    {
      var before := db.Contents();
      db.adjustments := db.adjustments + [a];
      var ok := ledger.PostAndCommit(a.currency, [
        Leg(a.from, Debit, a.amount, a.bookingId, None, None),
        Leg(a.to, Credit, a.amount, a.bookingId, None, None)]);
      if !ok {
        db.Rollback(before);
        return Failure(PostingFailed);
      }
      return Success(());
    }

    /** Stop a payout that has not left yet. No ledger entry: what is owed does not change. */
    method Hold(q: nat) returns (r: Result<(), AdminError>)
      requires Wired() && db.Valid()
      modifies db`payouts, db`trace
      ensures db.Valid() && old(db.trace) <= db.trace
      ensures r == if q < |old(db.payouts)| && old(db.payouts)[q].status in {PayoutStatus.Pending, PayoutStatus.Scheduled} then Success(()) else Failure(ValidationFailed)
      ensures db.payouts == if r.Success? then old(db.payouts)[q := old(db.payouts)[q].(status := PayoutStatus.OnHold)] else old(db.payouts)
    {
      hide Run, Next;
      var moved := payouts.Move(q, {PayoutStatus.Pending, PayoutStatus.Scheduled}, PayoutStatus.OnHold);
      if !moved {
        return Failure(ValidationFailed);
      }
      AdminSteps(db.fsm, db.Last(), q);
      db.Log(AdminHold(q));
      return Success(());
    }

    /** Release a held payout, and queue its execution. */
    method Release(q: nat) returns (r: Result<(), AdminError>)
      requires Wired() && db.Valid()
      modifies db`payouts, db`jobs, db`trace
      ensures db.Valid() && old(db.trace) <= db.trace
      ensures r == if q < |old(db.payouts)| && old(db.payouts)[q].status in {PayoutStatus.OnHold} then Success(()) else Failure(ValidationFailed)
      ensures db.payouts == if r.Success? then old(db.payouts)[q := old(db.payouts)[q].(status := PayoutStatus.Pending)] else old(db.payouts)
      ensures db.jobs == old(db.jobs) + if r.Success? then {ExecutePayout(q)} else {}
    {
      hide Run, Next;
      var moved := payouts.Move(q, {PayoutStatus.OnHold}, PayoutStatus.Pending);
      if !moved {
        return Failure(ValidationFailed);
      }
      AdminSteps(db.fsm, db.Last(), q);
      db.Add(ExecutePayout(q));
      db.Log(AdminRelease(q, true));
      return Success(());
    }

    /** Retry a failed transfer, and queue its execution. */
    method Retry(q: nat) returns (r: Result<(), AdminError>)
      requires Wired() && db.Valid()
      modifies db`payouts, db`jobs, db`trace
      ensures db.Valid() && old(db.trace) <= db.trace
      ensures r == if q < |old(db.payouts)| && old(db.payouts)[q].status in {PayoutStatus.Failed} then Success(()) else Failure(ValidationFailed)
      ensures db.payouts == if r.Success? then old(db.payouts)[q := old(db.payouts)[q].(status := PayoutStatus.Pending)] else old(db.payouts)
      ensures db.jobs == old(db.jobs) + if r.Success? then {ExecutePayout(q)} else {}
    {
      hide Run, Next;
      var moved := payouts.Move(q, {PayoutStatus.Failed}, PayoutStatus.Pending);
      if !moved {
        return Failure(ValidationFailed);
      }
      AdminSteps(db.fsm, db.Last(), q);
      db.Add(ExecutePayout(q));
      db.Log(AdminRetry(q, true));
      return Success(());
    }
  }
}
