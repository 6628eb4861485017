/** The split of a completed stay, the transfer to the host, and the settlement. */
module PayoutServices {
  import opened Common
  import opened BookingFsm
  import opened Pricing
  import opened Ledger
  import opened EscrowTables
  import opened EscrowProtocol
  import opened EscrowInvariant
  import opened EscrowSteps
  import opened EscrowTheorems
  import opened EscrowTransactions
  import opened Persistence
  import opened Repositories

  /** How the provider call ends: an accepted transfer, one whose response is lost, or a refusal. */
  datatype Answer = Accepted(ref: string) | ResponseLost(ref: string) | Refused

  class PayoutService {
    const db: Database
    const payouts: PayoutRepository
    const ledger: LedgerService

    constructor (db: Database)
      ensures this.db == db && Wired()
    {
      this.db := db;
      payouts := new PayoutRepository(db);
      ledger := new LedgerService(db);
    }

    predicate Wired() {
      payouts.db == db && ledger.db == db
    }

    /** The payout row and the four-leg split: both or neither. */
    method SplitTransaction(b: nat, p: nat) returns (r: Result<Option<nat>, ()>)
      requires Wired() && b < |db.bookings| && p < |db.payments|
      modifies db`payments, db`refunds, db`payouts, db`ledger, db`adjustments
      ensures match SplitEscrow(old(db.Contents()), b, p)
              case Committed(tables, created) => r == Success(created) && db.Contents() == tables
              case RolledBack => r.Failure? && db.Contents() == old(db.Contents())
    {
      var before := db.Contents();
      var booking := db.bookings[b];
      var hostShare := booking.money.hostPayout + booking.money.cleaning;
      var revenue := booking.money.commission + booking.money.service;
      var created := payouts.CreateIfAbsent(b, hostShare, booking.currency, db.payments[p].provider);
      if created.Rejected? {
        return Failure(());
      }
      if created.NoRow? {
        return Success(None);
      }
      var ok := ledger.PostAndCommit(booking.currency, [
        Leg(PlatformEscrow, Debit, booking.money.total, Some(b), Some(p), None),
        Leg(HostPayable, Credit, hostShare, Some(b), None, Some(created.value)),
        Leg(PlatformRevenue, Credit, revenue, Some(b), None, None),
        Leg(TaxPayable, Credit, booking.money.taxes, Some(b), None, None)]);
      if !ok {
        db.Rollback(before);
        return Failure(());
      }
      return Success(Some(created.value));
    }

    /** The rows of a store are sound, as those of every state of a run are. */
    lemma RowsAreOk()
      requires db.Valid()
      ensures RowsOk(db.Contents())
    {
      RunInv(db.fsm, db.trace, |db.trace| - 1);
    }

    /**
     * One create-payout job. A payout is created, and its execution queued, exactly when
     * the stay is completed, a captured payment is there to fund it, the booking has no
     * payout yet and the split commits; a split that cannot commit, because nothing is
     * left for the host, is thrown. The payout is of the host payout and the cleaning fee.
     */
    method CreateForBooking(b: nat, ghost w: nat) returns (r: Result<Option<nat>, ()>)
      requires Wired() && db.Valid() && db.Idle(w) && CreatePayout(b) in db.jobs
      modifies db`payments, db`refunds, db`payouts, db`ledger, db`adjustments, db`jobs, db`trace
      ensures db.Valid() && old(db.trace) <= db.trace && db.Idle(w)
      ensures
        var funds := CapturedForBooking(old(db.payments), b);
        if b < |old(db.bookings)| && old(db.bookings)[b].status == Completed && funds.Some? then
          match SplitEscrow(old(db.Contents()), b, funds.value)
          case Committed(tables, created) =>
            && r == Success(created) && db.Contents() == tables
            && db.jobs == old(db.jobs) + if created.Some? then {ExecutePayout(created.value)} else {}
          case RolledBack => r.Failure? && db.Contents() == old(db.Contents()) && db.jobs == old(db.jobs)
        else
          && db.Contents() == old(db.Contents()) && db.jobs == old(db.jobs)
          && r == if b < |old(db.bookings)| then Success(None) else Failure(())
      ensures r.Success? && r.value.Some? ==>
        var row, funds := old(db.bookings)[b], CapturedForBooking(old(db.payments), b);
        && r.value.value == |old(db.payouts)| && funds.Some? && row.money.hostPayout + row.money.cleaning > 0
        && db.payouts == old(db.payouts)
           + [Payout(b, PayoutStatus.Pending, row.money.hostPayout + row.money.cleaning, row.currency,
                     old(db.payments)[funds.value].provider, None)]
      ensures r.Failure? ==> b >= |old(db.bookings)| || old(db.bookings)[b].money.hostPayout + old(db.bookings)[b].money.cleaning == 0
    {
      hide Run, Next, SplitEscrow, RowsOk;
      RowsAreOk();
      if b >= |db.bookings| {
        return Failure(());
      }
      if db.bookings[b].status != Completed {
        return Success(None);
      }
      SplitSteps(db.fsm, db.Last(), w, b);
      db.Log(StartPayout(w, b));
      SplitSteps(db.fsm, db.Last(), w, b);
      var payment := CapturedForBooking(db.payments, b);
      db.Log(FindFunds(w));
      if payment.None? {
        return Success(None);
      }
      SplitPaysHost(db.Contents(), b, payment.value);
      r := SplitAndQueue(b, payment.value, w);
    }

    method SplitAndQueue(b: nat, p: nat, ghost w: nat) returns (r: Result<Option<nat>, ()>)
      requires Wired() && db.Valid() && db.WorkerAt(w, FoundFunds(b, p)) && b < |db.bookings| && p < |db.payments|
      modifies db`payments, db`refunds, db`payouts, db`ledger, db`adjustments, db`jobs, db`trace
      ensures db.Valid() && old(db.trace) <= db.trace && db.Idle(w)
      ensures
        match SplitEscrow(old(db.Contents()), b, p)
        case Committed(tables, created) =>
          && r == Success(created) && db.Contents() == tables
          && db.jobs == old(db.jobs) + if created.Some? then {ExecutePayout(created.value)} else {}
        case RolledBack => r.Failure? && db.Contents() == old(db.Contents()) && db.jobs == old(db.jobs)
    {
      hide Run, Next, SplitEscrow;
      SplitSteps(db.fsm, db.Last(), w, b);
      r := SplitTransaction(b, p);
      db.Log(Split(w));
      if r.Success? && r.value.Some? {
        QueueExecution(r.value.value, w);
      }
    }

    method QueueExecution(q: nat, ghost w: nat)
      requires db.Valid() && db.WorkerAt(w, SplitCommitted(q))
      modifies db`jobs, db`trace
      ensures db.Valid() && old(db.trace) <= db.trace && db.Idle(w)
      ensures db.jobs == old(db.jobs) + {ExecutePayout(q)}
    {
      hide Run, Next;
      SplitSteps(db.fsm, db.Last(), w, 0);
      db.Add(ExecutePayout(q));
      db.Log(EnqueueExecute(w));
    }

    /** PAID and the settlement group: both or neither; a payout that is not in transit is left alone. */
    method SettleTransaction(q: nat) returns (r: Result<bool, ()>)
      requires Wired()
      modifies db`payments, db`refunds, db`payouts, db`ledger, db`adjustments
      ensures match SettlePayout(old(db.Contents()), q)
              case Committed(tables, settled) => r == Success(settled) && db.Contents() == tables
              case RolledBack => r.Failure? && db.Contents() == old(db.Contents())
    {
      var before := db.Contents();
      var paid := payouts.MarkPaid(q);
      if !paid {
        return Success(false);
      }
      var payout := db.payouts[q];
      var ok := ledger.PostAndCommit(payout.currency, [
        Leg(HostPayable, Debit, payout.amount, Some(payout.bookingId), None, Some(q)),
        Leg(ProviderClearing, Credit, payout.amount, Some(payout.bookingId), None, Some(q))]);
      if !ok {
        db.Rollback(before);
        return Failure(());
      }
      return Success(true);
    }

    /** Settlement on the provider's word: a payout in transit is PAID and posted, any other is left alone; it never fails. */
    method Settle(q: nat) returns (r: Result<bool, ()>)
      requires Wired() && db.Valid()
      modifies db`payments, db`refunds, db`payouts, db`ledger, db`adjustments, db`trace
      ensures db.Valid() && old(db.trace) <= db.trace
      ensures r == Success(q < |old(db.payouts)| && old(db.payouts)[q].status == PayoutStatus.InTransit)
      ensures db.Contents() == if r.value then PaidAndPosted(old(db.Contents()), q) else old(db.Contents())
    {
      hide Run, Next, SettlePayout, RowsOk;
      RowsAreOk();
      SettleByColumns(db.Contents(), q);
      r := SettleTransaction(q);
      AdminSteps(db.fsm, db.Last(), q);
      db.Log(SettleByProvider(q));
    }

    /**
     * One execute-payout job. A payout that is not PENDING is left alone. Otherwise the
     * provider is asked once, idempotently on the payout id, and the call throws exactly
     * if no answer of it comes back. Then the row is FAILED; else it carries the
     * provider's transfer and is IN_TRANSIT, or, if the provider settles at once, PAID
     * and posted. Nothing else is touched.
     */
    method Execute(q: nat, answer: Answer, ghost w: nat) returns (thrown: bool)
      requires Wired() && db.Valid() && db.Idle(w) && ExecutePayout(q) in db.jobs
      modifies db`payments, db`refunds, db`payouts, db`ledger, db`adjustments, db`transfers, db`trace
      ensures db.Valid() && old(db.trace) <= db.trace && db.Idle(w)
      ensures q >= |old(db.payouts)| || old(db.payouts)[q].status != PayoutStatus.Pending ==>
        !thrown && db.Contents() == old(db.Contents()) && db.transfers == old(db.transfers)
      ensures q < |old(db.payouts)| && old(db.payouts)[q].status == PayoutStatus.Pending ==>
        && (thrown <==> !answer.Accepted?)
        && db.transfers == (if answer.Refused? || q in old(db.transfers) then old(db.transfers) else old(db.transfers)[q := answer.ref])
        && db.Contents() ==
           if thrown then Rewritten(old(db.Contents()), q, old(db.payouts)[q].(status := PayoutStatus.Failed))
           else
             var moving := Rewritten(old(db.Contents()), q,
                                     old(db.payouts)[q].(status := PayoutStatus.InTransit, transfer := Some(db.transfers[q])));
             if old(db.payouts)[q].provider == Mock then PaidAndPosted(moving, q) else moving
    {
      hide Run, Next;
      if q >= |db.payouts| || db.payouts[q].status != PayoutStatus.Pending {
        return false;
      }
      ExecuteSteps(db.fsm, db.Last(), w, q);
      db.Log(StartExecute(w, q));
      match answer
      case Refused =>
        SettlementSteps(db.fsm, db.Last(), w);
        db.Log(ExecuteThrows(w));
        FailAndEnd(q, w);
        return true;
      case ResponseLost(ref) =>
        TransferSteps(db.fsm, db.Last(), w, ref);
        db.transfers := ProviderTransfer(db.transfers, q, ref);
        db.Log(TransferResponseLost(w, ref));
        FailAndEnd(q, w);
        return true;
      case Accepted(ref) =>
        TransferSteps(db.fsm, db.Last(), w, ref);
        db.transfers := ProviderTransfer(db.transfers, q, ref);
        db.Log(Transfer(w, ref));
        MarkTransfer(q, w);
        return false;
    }

    method FailAndEnd(q: nat, ghost w: nat)
      requires Wired() && db.Valid() && db.WorkerAt(w, TransferThrew(q))
      requires q < |db.payouts| && db.payouts[q].status in {PayoutStatus.Pending, PayoutStatus.InTransit}
      modifies db`payouts, db`trace
      ensures db.Valid() && old(db.trace) <= db.trace && db.Idle(w)
      ensures db.payouts == old(db.payouts)[q := old(db.payouts)[q].(status := PayoutStatus.Failed)]
    {
      hide Run, Next;
      SettlementSteps(db.fsm, db.Last(), w);
      payouts.MarkFailed(q);
      db.Log(FailPayout(w));
    }

    /** The provider has accepted: IN_TRANSIT with its transfer, then settled at once by the mock provider. */
    method MarkTransfer(q: nat, ghost w: nat)
      requires Wired() && db.Valid() && q < |db.payouts| && db.payouts[q].status == PayoutStatus.Pending
      requires q in db.transfers && db.WorkerAt(w, TransferMade(q, db.payouts[q].provider, db.transfers[q]))
      modifies db`payments, db`refunds, db`payouts, db`ledger, db`adjustments, db`trace
      ensures db.Valid() && old(db.trace) <= db.trace && db.Idle(w)
      ensures
        var moving := Rewritten(old(db.Contents()), q,
                                old(db.payouts)[q].(status := PayoutStatus.InTransit, transfer := Some(db.transfers[q])));
        db.Contents() == if old(db.payouts)[q].provider == Mock then PaidAndPosted(moving, q) else moving
    {
      hide Run, Next, SettlePayout, RowsOk, PaidAndPosted;
      var provider, transfer := db.payouts[q].provider, db.transfers[q];
      ExecuteSteps(db.fsm, db.Last(), w, q);
      var moving := payouts.MarkInTransit(q, provider, transfer);
      db.Log(InTransitSwap(w));
      SettlementSteps(db.fsm, db.Last(), w);
      if provider != Mock {
        db.Log(LeaveToProvider(w));
        return;
      }
      SettleAtOnce(q, w);
    }

    /** What the mock provider does with a transfer: it is settled when it is made, and that never fails. */
    method SettleAtOnce(q: nat, ghost w: nat)
      requires Wired() && db.Valid() && q < |db.payouts| && db.payouts[q].status == PayoutStatus.InTransit
      requires db.WorkerAt(w, PayoutMoving(q, Mock))
      modifies db`payments, db`refunds, db`payouts, db`ledger, db`adjustments, db`trace
      ensures db.Valid() && old(db.trace) <= db.trace && db.Idle(w)
      ensures db.Contents() == PaidAndPosted(old(db.Contents()), q)
    {
      hide Run, Next, SettlePayout, RowsOk, PaidAndPosted;
      RowsAreOk();
      SettledIsPosted(db.Contents(), q);
      SettlementSteps(db.fsm, db.Last(), w);
      var settled := SettleTransaction(q);
      db.Log(SettleMock(w));
    }
  }

  function Rewritten(db: Tables, q: nat, row: Payout): Tables
    requires q < |db.payouts|
  {
    db.(payouts := db.payouts[q := row])
  }

  /** A settled payout: PAID, and its amount out of what is owed to the host, into what the provider cleared. */
  function PaidAndPosted(db: Tables, q: nat): Tables
    requires q < |db.payouts|
  {
    var row, g := db.payouts[q], |db.ledger|;
    Rewritten(db, q, row.(status := PayoutStatus.Paid)).(ledger := db.ledger + [
      Entry(g, row.currency, Leg(HostPayable, Debit, row.amount, Some(row.bookingId), None, Some(q))),
      Entry(g, row.currency, Leg(ProviderClearing, Credit, row.amount, Some(row.bookingId), None, Some(q)))])
  }

  /** A split creates a payout of the host payout and the cleaning fee, and rolls back only if that is nothing. */
  lemma SplitPaysHost(db: Tables, b: nat, p: nat)
    requires RowsOk(db) && b < |db.bookings| && p < |db.payments|
    ensures
      var row := db.bookings[b];
      match SplitEscrow(db, b, p)
      case Committed(tables, Some(q)) =>
        && q == |db.payouts| && row.money.hostPayout + row.money.cleaning > 0
        && tables.payouts == db.payouts
           + [Payout(b, PayoutStatus.Pending, row.money.hostPayout + row.money.cleaning, row.currency, db.payments[p].provider, None)]
      case Committed(_, None) => true
      case RolledBack => row.money.hostPayout + row.money.cleaning == 0
  {
    SplitByColumns(db, b, p);
    assert MoneyChecks(db.bookings[b].money);
  }

  lemma SettledIsPosted(db: Tables, q: nat)
    requires RowsOk(db) && q < |db.payouts| && db.payouts[q].status == PayoutStatus.InTransit
    ensures SettlePayout(db, q) == Committed(PaidAndPosted(db, q), true)
  {
    SettleByColumns(db, q);
  }
}
