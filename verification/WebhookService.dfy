/**
 * The webhook pipeline as it runs: intake, and the processing of one claimed event.
 * Each method reports the machine steps it took, so a call is a stretch of a run.
 */
module WebhookServices {
  import opened Common
  import opened BookingFsm
  import opened Bookings
  import opened Ledger
  import opened EscrowTables
  import opened EscrowProtocol
  import opened EscrowSteps
  import opened EscrowSafety
  import opened EscrowTheorems
  import opened Persistence
  import opened Repositories

  /** How the booking of a captured payment is reconciled. */
  datatype Reconciliation = LeftAlone | HoldConfirmed | RefundQueued | Rethrown

  /**
   * By the booking's row and the two clocks: a live hold is confirmed, unless a host
   * block has come in its way; a hold past its deadline by both clocks gets its money
   * back, one past it only by the database's is thrown for a later try; a booking that
   * is not pending, or that the whitelist does not let be confirmed, is left alone.
   */
  ghost function Reconcile(fsm: set<Edge>, bookings: seq<Booking>, blocks: seq<Block>, now: int, appNow: int, b: nat): Reconciliation
    requires b < |bookings|
  {
    var row := bookings[b];
    if row.status != PendingPayment || (PendingPayment, Confirmed) !in fsm then LeftAlone
    else if now < row.holdExpiresAt then
      if exists k :: 0 <= k < |blocks| && BlockInTheWay(blocks[k], row.unit, row.checkIn, row.checkOut, row.turnaroundMinutes)
      then Rethrown else HoldConfirmed
    else if row.holdExpiresAt <= appNow then RefundQueued
    else Rethrown
  }

  /** What a reconciliation makes of the bookings and the jobs, and whether it throws. */
  ghost predicate Reconciled(
    how: Reconciliation, now: int, b: nat, bookings: seq<Booking>, jobs: set<Job>,
    bookings': seq<Booking>, jobs': set<Job>, thrown: bool)
    requires b < |bookings|
  {
    && thrown == how.Rethrown?
    && bookings' == (if how.HoldConfirmed? then bookings[b := Stamped(bookings[b], Confirmed, now)] else bookings)
    && jobs' == jobs + if how.RefundQueued? then {CreateRefund(b)} else {}
  }

  /**
   * What a committed refund makes of the bookings: a cancelled booking is REFUNDED, if
   * the whitelist has the move, and the call throws if it has not; any other booking,
   * and every other row, is as it was.
   */
  ghost predicate Advanced(fsm: set<Edge>, now: int, b: nat, bookings: seq<Booking>, bookings': seq<Booking>, thrown: bool)
    requires b < |bookings|
  {
    var cancelled := bookings[b].status == Status.Cancelled;
    && (thrown <==> cancelled && (Status.Cancelled, Status.Refunded) !in fsm)
    && bookings' == if cancelled && !thrown then bookings[b := Stamped(bookings[b], Status.Refunded, now)] else bookings
  }

  /** What the work on an event makes of the bookings and the jobs, and whether it throws, by the event and the tables it finds. */
  ghost predicate HandledAs(
    fsm: set<Edge>, now: int, appNow: int, e: Event, tables: Tables, jobs: set<Job>,
    bookings': seq<Booking>, jobs': set<Job>, thrown: bool)
  {
    match e.kind
    case PaymentCaptured =>
      (match EscrowTables.ApplyCapture(tables, e)
       case RolledBack => thrown && bookings' == tables.bookings && jobs' == jobs
       case Committed(_, b) =>
         && b < |tables.bookings|
         && Reconciled(Reconcile(fsm, tables.bookings, tables.blocks, now, appNow, b), now, b,
                       tables.bookings, jobs, bookings', jobs', thrown))
    case RefundSucceeded =>
      && jobs' == jobs
      && (match EscrowTables.ApplyRefund(tables, e)
          case RolledBack => thrown && bookings' == tables.bookings
          case Committed(_, b) => b < |tables.bookings| && Advanced(fsm, now, b, tables.bookings, bookings', thrown))
    case PaymentFailed => thrown == EscrowTables.ApplyFailure(tables, e).RolledBack? && bookings' == tables.bookings && jobs' == jobs
    case _ => !thrown && bookings' == tables.bookings && jobs' == jobs
  }

  class WebhookService {
    const db: Database
    const webhooks: WebhookRepository
    const payments: PaymentRepository
    const ledger: LedgerService
    const bookings: BookingRepository

    constructor (db: Database)
      ensures this.db == db && Wired()
    {
      this.db := db;
      webhooks := new WebhookRepository(db);
      payments := new PaymentRepository(db);
      ledger := new LedgerService(db);
      bookings := new BookingRepository(db);
    }

    predicate Wired() {
      webhooks.db == db && payments.db == db && ledger.db == db && bookings.db == db
    }

    /** Record once, enqueue once; a redelivery and a bad signature enqueue nothing. */
    method Intake(e: Event, signatureValid: bool, ghost w: nat) returns (accepted: bool, duplicate: bool)
      requires Wired() && db.Valid() && db.Idle(w)
      modifies db`events, db`jobs, db`trace
      ensures db.Valid() && old(db.trace) <= db.trace && db.Idle(w)
      ensures accepted == signatureValid
      ensures duplicate == (signatureValid && Recorded(old(db.events), e.provider, e.eventId))
      ensures
        if exists k :: 0 <= k < |old(db.events)| && old(db.events)[k].provider == e.provider && old(db.events)[k].eventId == e.eventId
        then db.events == old(db.events) && (duplicate || !accepted)
        else
          && !duplicate
          && db.events == old(db.events)
                          + [e.(status := if signatureValid then WebhookStatus.Received else WebhookStatus.Skipped, attempts := 0)]
      ensures db.jobs == old(db.jobs) + if accepted && !duplicate then {ProcessWebhook(|old(db.events)|)} else {}
    {
      hide Run, Next;
      var id := webhooks.Record(e, signatureValid);
      if id.Some? {
        DeliverySteps(db.fsm, db.Last(), w, e, signatureValid, 0);
        db.Log(Step.Intake(w, e, signatureValid));
      }
      if !signatureValid {
        return false, false;
      }
      if id.None? {
        return true, true;
      }
      db.Add(ProcessWebhook(id.value));
      DeliverySteps(db.fsm, db.Last(), w, e, signatureValid, id.value);
      db.Log(IntakeEnqueue(w));
      return true, false;
    }

    // ---- transactions ----

    /** Lookup, amount check, capture and escrow entry: all of it or none of it. */
    method CaptureTransaction(e: Event) returns (r: Result<nat, ()>)
      requires Wired()
      modifies db`payments, db`refunds, db`payouts, db`ledger, db`adjustments
      ensures match EscrowTables.ApplyCapture(old(db.Contents()), e)
              case Committed(tables, b) => r == Success(b) && db.Contents() == tables
              case RolledBack => r.Failure? && db.Contents() == old(db.Contents())
    {
      if e.intent.None? {
        return Failure(());
      }
      var before := db.Contents();
      var id := PaymentByIntent(db.payments, e.provider, e.intent.value);
      if id.None? {
        return Failure(());
      }
      var payment := db.payments[id.value];
      if e.amount.Some? && e.amount.value != payment.amount {
        return Failure(());
      }
      var captured := payments.MarkCaptured(id.value);
      if captured {
        var ok := ledger.PostAndCommit(payment.currency, [
          Leg(ProviderClearing, Debit, payment.amount, Some(payment.bookingId), Some(id.value), None),
          Leg(PlatformEscrow, Credit, payment.amount, Some(payment.bookingId), Some(id.value), None)]);
        if !ok {
          db.Rollback(before);
          return Failure(());
        }
      }
      return Success(payment.bookingId);
    }

    method FailureTransaction(e: Event) returns (r: Result<(), ()>)
      requires Wired()
      modifies db`payments
      ensures match EscrowTables.ApplyFailure(old(db.Contents()), e)
              case Committed(tables, _) => r.Success? && db.Contents() == tables
              case RolledBack => r.Failure? && db.Contents() == old(db.Contents())
    {
      if e.intent.None? {
        return Failure(());
      }
      var id := PaymentByIntent(db.payments, e.provider, e.intent.value);
      if id.Some? {
        payments.MarkFailed(id.value);
      }
      return Success(());
    }

    /** Settle the refund row, the payment's counter and the ledger: all of it or none of it. */
    method RefundTransaction(e: Event) returns (r: Result<nat, ()>)
      requires Wired()
      modifies db`payments, db`refunds, db`payouts, db`ledger, db`adjustments
      ensures match EscrowTables.ApplyRefund(old(db.Contents()), e)
              case Committed(tables, b) => r == Success(b) && db.Contents() == tables
              case RolledBack => r.Failure? && db.Contents() == old(db.Contents())
    {
      if e.intent.None? || e.refundRef.None? {
        return Failure(());
      }
      var before := db.Contents();
      var id := PaymentByIntent(db.payments, e.provider, e.intent.value);
      if id.None? {
        return Failure(());
      }
      var payment := db.payments[id.value];
      var settled := payments.SettleRefund(id.value, e.refundRef.value);
      if settled.Rejected? {
        db.Rollback(before);
        return Failure(());
      }
      if settled.Wrote? {
        var ok := ledger.PostAndCommit(payment.currency, [
          Leg(PlatformEscrow, Debit, settled.value, Some(payment.bookingId), Some(id.value), None),
          Leg(GuestRefundClearing, Credit, settled.value, Some(payment.bookingId), Some(id.value), None)]);
        if !ok {
          db.Rollback(before);
          return Failure(());
        }
      }
      return Success(payment.bookingId);
    }

    // ---- the booking side of a capture ----

    /** The worker past a capture knows that its booking exists. */
    lemma BookingExists(w: nat)
      requires db.Valid() && w in db.Last().workers && db.Last().workers[w].CaptureApplied?
      ensures db.Last().workers[w].booking < |db.bookings|
    {
      RunInv(db.fsm, db.trace, |db.trace| - 1);
      assert WorkerOk(db.fsm, db.Last().db, db.Last().now, db.Last().workers[w]);
    }

    /**
     * Reconcile the booking with a captured payment, as `Reconcile` says: whatever has
     * happened since the capture, the call does the one thing that is due.
     */
    method ConfirmBookingIdempotent(id: nat, b: nat, appNow: int, ghost p: nat, ghost w: nat) returns (thrown: bool)
      requires Wired() && db.Valid() && db.WorkerAt(w, CaptureApplied(id, b, p))
      modifies db`bookings, db`jobs, db`trace
      ensures db.Valid() && old(db.trace) <= db.trace
      ensures db.WorkerAt(w, if thrown then Failing(id) else Finishing(id))
      ensures b < |old(db.bookings)|
      ensures Reconciled(Reconcile(db.fsm, old(db.bookings), db.blocks, db.now, appNow, b), db.now, b,
                         old(db.bookings), old(db.jobs), db.bookings, db.jobs, thrown)
    {
      hide Run, Next;
      BookingExists(w);
      ConfirmSteps(db.fsm, db.Last(), w, appNow);
      db.Log(ReadAfterCapture(w));
      if db.bookings[b].status != PendingPayment {
        return false;
      }
      thrown := Confirm(id, b, appNow, p, w);
    }

    /** The confirm call inside the webhook, with the errors it swallows and the one it turns into a refund job. */
    method Confirm(id: nat, b: nat, appNow: int, ghost p: nat, ghost w: nat) returns (thrown: bool)
      requires Wired() && db.Valid() && db.WorkerAt(w, SawPending(id, b, p))
      requires b < |db.bookings| && db.bookings[b].status == PendingPayment
      modifies db`bookings, db`jobs, db`trace
      ensures db.Valid() && old(db.trace) <= db.trace
      ensures db.WorkerAt(w, if thrown then Failing(id) else Finishing(id))
      ensures Reconciled(Reconcile(db.fsm, old(db.bookings), db.blocks, db.now, appNow, b), db.now, b,
                         old(db.bookings), old(db.jobs), db.bookings, db.jobs, thrown)
    {
      hide Run, Next, NoDoubleBooking, RangesOk;
      ConfirmSteps(db.fsm, db.Last(), w, appNow);
      db.Log(AssertConfirm(w));
      if (PendingPayment, Confirmed) !in db.fsm {
        return false;
      }
      NeverDoubleBooked(db.fsm, db.trace, |db.trace| - 1);
      ConfirmIff(db.bookings, db.blocks, db.fsm, b, db.now);
      hide Bookings.ConfirmHold;
      ConfirmSteps(db.fsm, db.Last(), w, appNow);
      var confirmed := bookings.ConfirmHold(b);
      db.Log(ConfirmSwap(w));
      if !confirmed.NoRow? {
        return confirmed.Rejected?;
      }
      thrown := ClassifyLoss(id, b, appNow, w);
    }

    /** The confirm found no row: HoldExpired becomes a refund job, a stale state is thrown. */
    method ClassifyLoss(id: nat, b: nat, appNow: int, ghost w: nat) returns (thrown: bool)
      requires Wired() && db.Valid() && db.WorkerAt(w, ConfirmLost(id, b))
      requires b < |db.bookings| && db.bookings[b].status == PendingPayment
      modifies db`jobs, db`trace
      ensures db.Valid() && old(db.trace) <= db.trace
      ensures db.WorkerAt(w, if thrown then Failing(id) else Finishing(id))
      ensures thrown == (db.bookings[b].holdExpiresAt > appNow)
      ensures db.jobs == if thrown then old(db.jobs) else old(db.jobs) + {CreateRefund(b)}
    {
      hide Run, Next;
      ConfirmSteps(db.fsm, db.Last(), w, appNow);
      db.Log(ClassifyLost(w, appNow));
      if db.bookings[b].holdExpiresAt > appNow {
        return true;
      }
      ConfirmSteps(db.fsm, db.Last(), w, appNow);
      db.Add(CreateRefund(b));
      db.Log(EnqueueRefund(w));
      return false;
    }

    /** Capture the payment, reconcile the booking, mark the event. */
    method ApplyCapture(id: nat, appNow: int, ghost w: nat) returns (thrown: bool)
      requires Wired() && db.Valid() && db.WorkerAt(w, Claimed(id))
      requires id < |db.events| && db.events[id].kind == PaymentCaptured
      modifies db`bookings, db`payments, db`refunds, db`payouts, db`ledger, db`adjustments, db`events, db`jobs, db`trace
      ensures db.Valid() && old(db.trace) <= db.trace
      ensures thrown ==> db.WorkerAt(w, Failing(id)) && db.events == old(db.events)
      ensures !thrown ==> db.Idle(w) && db.events == Marked(old(db.events), id, WebhookStatus.Processed)
      ensures
        match EscrowTables.ApplyCapture(old(db.Contents()), old(db.events)[id])
        case RolledBack => thrown && MoneyIs(old(db.Contents())) && db.bookings == old(db.bookings) && db.jobs == old(db.jobs)
        case Committed(tables, b) =>
          && MoneyIs(tables) && b < |old(db.bookings)|
          && Reconciled(Reconcile(db.fsm, old(db.bookings), db.blocks, db.now, appNow, b), db.now, b,
                        old(db.bookings), old(db.jobs), db.bookings, db.jobs, thrown)
    {
      hide Run, Next, EscrowTables.ApplyCapture, Reconcile, Reconciled;
      TransactionSteps(db.fsm, db.Last(), w);
      ghost var p := NamedPayment(db.Contents(), db.events[id]);
      var applied := CaptureTransaction(db.events[id]);
      db.Log(CaptureTx(w));
      if applied.Failure? {
        return true;
      }
      thrown := ConfirmBookingIdempotent(id, applied.value, appNow, p, w);
      if !thrown {
        MarkAndEnd(id, WebhookStatus.Processed, w);
      }
    }

    method ApplyFailure(id: nat, ghost w: nat) returns (thrown: bool)
      requires Wired() && db.Valid() && db.WorkerAt(w, Claimed(id))
      requires id < |db.events| && db.events[id].kind == PaymentFailed
      modifies db`bookings, db`payments, db`refunds, db`payouts, db`ledger, db`adjustments, db`events, db`jobs, db`trace
      ensures db.Valid() && old(db.trace) <= db.trace
      ensures thrown ==> db.WorkerAt(w, Failing(id)) && db.events == old(db.events)
      ensures !thrown ==> db.Idle(w) && db.events == Marked(old(db.events), id, WebhookStatus.Processed)
      ensures var tx := EscrowTables.ApplyFailure(old(db.Contents()), old(db.events)[id]);
              && MoneyIs(if tx.Committed? then tx.db else old(db.Contents()))
              && (tx.RolledBack? <==> thrown) && db.bookings == old(db.bookings) && db.jobs == old(db.jobs)
    {
      hide Run, Next, EscrowTables.ApplyFailure;
      TransactionSteps(db.fsm, db.Last(), w);
      var applied := FailureTransaction(db.events[id]);
      db.Log(FailureTx(w));
      if applied.Failure? {
        return true;
      }
      MarkAndEnd(id, WebhookStatus.Processed, w);
      return false;
    }

    /** Settle the refund, move a cancelled booking on to REFUNDED, mark the event. */
    method ApplyRefund(id: nat, ghost w: nat) returns (thrown: bool)
      requires Wired() && db.Valid() && db.WorkerAt(w, Claimed(id))
      requires id < |db.events| && db.events[id].kind == RefundSucceeded
      modifies db`bookings, db`payments, db`refunds, db`payouts, db`ledger, db`adjustments, db`events, db`jobs, db`trace
      ensures db.Valid() && old(db.trace) <= db.trace && db.jobs == old(db.jobs)
      ensures thrown ==> db.WorkerAt(w, Failing(id)) && db.events == old(db.events)
      ensures !thrown ==> db.Idle(w) && db.events == Marked(old(db.events), id, WebhookStatus.Processed)
      ensures
        match EscrowTables.ApplyRefund(old(db.Contents()), old(db.events)[id])
        case RolledBack => thrown && MoneyIs(old(db.Contents())) && db.bookings == old(db.bookings)
        case Committed(tables, b) => MoneyIs(tables) && b < |old(db.bookings)| && Advanced(db.fsm, db.now, b, old(db.bookings), db.bookings, thrown)
    {
      hide Run, Next, EscrowTables.ApplyRefund, Bookings.Transition, Advanced;
      TransactionSteps(db.fsm, db.Last(), w);
      var applied := RefundTransaction(db.events[id]);
      db.Log(RefundTx(w));
      if applied.Failure? {
        return true;
      }
      thrown := AdvanceCancelled(id, applied.value, w);
      if !thrown {
        MarkAndEnd(id, WebhookStatus.Processed, w);
      }
    }

    lemma RefundedBookingExists(w: nat)
      requires db.Valid() && w in db.Last().workers && db.Last().workers[w].RefundApplied?
      ensures db.Last().workers[w].booking < |db.bookings|
    {
      RunInv(db.fsm, db.trace, |db.trace| - 1);
      assert WorkerOk(db.fsm, db.Last().db, db.Last().now, db.Last().workers[w]);
    }

    /** A cancelled booking whose money went back becomes REFUNDED. */
    method AdvanceCancelled(id: nat, b: nat, ghost w: nat) returns (thrown: bool)
      requires Wired() && db.Valid() && db.WorkerAt(w, RefundApplied(id, b))
      modifies db`bookings, db`trace
      ensures db.Valid() && old(db.trace) <= db.trace
      ensures db.WorkerAt(w, if thrown then Failing(id) else Finishing(id))
      ensures b < |old(db.bookings)| && Advanced(db.fsm, db.now, b, old(db.bookings), db.bookings, thrown)
    {
      hide Run, Next;
      RefundedBookingExists(w);
      RefundedSteps(db.fsm, db.Last(), w);
      db.Log(ReadAfterRefund(w));
      if db.bookings[b].status != Status.Cancelled {
        return false;
      }
      RefundedSteps(db.fsm, db.Last(), w);
      db.Log(AssertRefunded(w));
      if (Status.Cancelled, Status.Refunded) !in db.fsm {
        return true;
      }
      RefundedSteps(db.fsm, db.Last(), w);
      var moved := bookings.Transition(b, Status.Cancelled, Status.Refunded);
      db.Log(RefundedSwap(w));
      return !moved.Wrote?;
    }

    // ---- one event from claim to mark ----

    ghost predicate MoneyIs(tables: Tables)
      reads db
    {
      && db.payments == tables.payments && db.refunds == tables.refunds && db.payouts == tables.payouts
      && db.ledger == tables.ledger && db.adjustments == tables.adjustments
    }

    method MarkAndEnd(id: nat, status: WebhookStatus, ghost w: nat)
      requires Wired() && db.Valid() && id < |db.events|
      requires status in {WebhookStatus.Processed, WebhookStatus.Skipped, WebhookStatus.Failed}
      requires db.WorkerAt(w, EndingAt(id, status))
      modifies db`events, db`trace
      ensures db.Valid() && old(db.trace) <= db.trace && db.Idle(w)
      ensures db.events == Marked(old(db.events), id, status)
    {
      hide Run, Next;
      EndingSteps(db.fsm, db.Last(), w, status);
      webhooks.Mark(id, status);
      db.Log(Ending(w, status));
    }

    /** The work a claimed event asks for, up to its final mark or the error it throws. */
    method Dispatch(id: nat, appNow: int, ghost w: nat) returns (thrown: bool)
      requires Wired() && db.Valid() && db.WorkerAt(w, Claimed(id)) && id < |db.events|
      modifies db`bookings, db`payments, db`refunds, db`payouts, db`ledger, db`adjustments, db`events, db`jobs, db`trace
      ensures db.Valid() && old(db.trace) <= db.trace
      ensures MoneyIs(Moved(old(db.Contents()), old(db.events)[id]))
      ensures HandledAs(db.fsm, db.now, appNow, old(db.events)[id], old(db.Contents()), old(db.jobs), db.bookings, db.jobs, thrown)
      ensures thrown ==> db.WorkerAt(w, Failing(id)) && db.events == old(db.events)
      ensures !thrown ==> db.Idle(w) && db.events == Marked(old(db.events), id,
        if old(db.events)[id].kind == Ignored then WebhookStatus.Skipped else WebhookStatus.Processed)
    {
      hide Run, Next, EscrowTables.ApplyCapture, EscrowTables.ApplyFailure, EscrowTables.ApplyRefund, Reconcile, Reconciled, Advanced;
      match db.events[id].kind {
        case PaymentCaptured => thrown := ApplyCapture(id, appNow, w);
        case PaymentFailed => thrown := ApplyFailure(id, w);
        case RefundSucceeded => thrown := ApplyRefund(id, w);
        case RefundFailed =>
          EndingSteps(db.fsm, db.Last(), w, WebhookStatus.Failed);
          db.Log(PassOver(w));
          MarkAndEnd(id, WebhookStatus.Processed, w);
          thrown := false;
        case Ignored =>
          EndingSteps(db.fsm, db.Last(), w, WebhookStatus.Failed);
          db.Log(PassOver(w));
          MarkAndEnd(id, WebhookStatus.Skipped, w);
          thrown := false;
      }
    }

    /**
     * Process one queued event. Only the claim's winner works on it; the money tables
     * become those of its one transaction, or stay as they were; the booking is
     * reconciled with a capture and moves on after a refund; and the event ends
     * PROCESSED, SKIPPED, or FAILED with the error thrown for the queue to retry.
     */
    method Process(id: nat, appNow: int, ghost w: nat) returns (thrown: bool)
      requires Wired() && db.Valid() && db.Idle(w) && ProcessWebhook(id) in db.jobs
      modifies db`bookings, db`payments, db`refunds, db`payouts, db`ledger, db`adjustments, db`events, db`jobs, db`trace
      ensures db.Valid() && old(db.trace) <= db.trace && db.Idle(w)
      ensures !Claimable(old(db.events), id) ==> !thrown && db.Contents() == old(db.Contents()) && db.jobs == old(db.jobs)
      ensures Claimable(old(db.events), id) ==>
        && MoneyIs(Moved(old(db.Contents()), old(db.events)[id]))
        && HandledAs(db.fsm, db.now, appNow, old(db.events)[id], old(db.Contents()), old(db.jobs), db.bookings, db.jobs, thrown)
        && db.events == Marked(old(db.events)[id := old(db.events)[id].(attempts := old(db.events)[id].attempts + 1)], id,
             if thrown then WebhookStatus.Failed
             else if old(db.events)[id].kind == Ignored then WebhookStatus.Skipped
             else WebhookStatus.Processed)
    {
      hide Run, Next, Moved, HandledAs;
      ghost var before := db.Contents();
      var claimed := webhooks.ClaimForProcessing(id);
      if !claimed {
        return false;
      }
      DeliverySteps(db.fsm, db.Last(), w, db.events[id], true, id);
      db.Log(Claim(w, id));
      TransactionsIgnoreTheInbox(before, db.Contents(), before.events[id], db.events[id]);
      thrown := Dispatch(id, appNow, w);
      if thrown {
        MarkAndEnd(id, WebhookStatus.Failed, w);
      }
    }
  }

  predicate Claimable(events: seq<Event>, id: nat) {
    id < |events| && events[id].status in {WebhookStatus.Received, WebhookStatus.Failed}
  }

  function Marked(events: seq<Event>, id: nat, status: WebhookStatus): seq<Event>
    requires id < |events|
  {
    events[id := events[id].(status := status)]
  }

  /** The tables after the transaction that an event asks for, if it commits. */
  function Moved(db: Tables, e: Event): Tables {
    match e.kind
    case PaymentCaptured =>
      var tx := EscrowTables.ApplyCapture(db, e);
      if tx.Committed? then tx.db else db
    case PaymentFailed =>
      var tx := EscrowTables.ApplyFailure(db, e);
      if tx.Committed? then tx.db else db
    case RefundSucceeded =>
      var tx := EscrowTables.ApplyRefund(db, e);
      if tx.Committed? then tx.db else db
    case RefundFailed => db
    case Ignored => db
  }

  /** Tables that agree but for the inbox. */
  ghost predicate SameMoney(db: Tables, db': Tables) {
    && db'.payments == db.payments && db'.refunds == db.refunds && db'.payouts == db.payouts
    && db'.ledger == db.ledger && db'.adjustments == db.adjustments
  }

  lemma CaptureIgnoresTheInbox(db: Tables, db': Tables, e: Event, e': Event)
    requires db' == db.(events := db'.events) && e' == e.(status := e'.status, attempts := e'.attempts)
    ensures
      var tx, tx' := EscrowTables.ApplyCapture(db, e), EscrowTables.ApplyCapture(db', e');
      tx'.Committed? == tx.Committed? && (tx.Committed? ==> tx'.value == tx.value && SameMoney(tx.db, tx'.db))
  {
  }

  lemma RefundIgnoresTheInbox(db: Tables, db': Tables, e: Event, e': Event)
    requires db' == db.(events := db'.events) && e' == e.(status := e'.status, attempts := e'.attempts)
    ensures
      var tx, tx' := EscrowTables.ApplyRefund(db, e), EscrowTables.ApplyRefund(db', e');
      tx'.Committed? == tx.Committed? && (tx.Committed? ==> tx'.value == tx.value && SameMoney(tx.db, tx'.db))
  {
  }

  /** The claim touches neither the money tables nor what the event says. */
  lemma TransactionsIgnoreTheInbox(db: Tables, db': Tables, e: Event, e': Event)
    requires db' == db.(events := db'.events) && e' == e.(status := e'.status, attempts := e'.attempts)
    ensures SameMoney(Moved(db, e), Moved(db', e'))
    ensures forall fsm, now, appNow, jobs, bookings', jobs', thrown ::
      HandledAs(fsm, now, appNow, e', db', jobs, bookings', jobs', thrown) ==>
        HandledAs(fsm, now, appNow, e, db, jobs, bookings', jobs', thrown)
  {
    hide EscrowTables.ApplyCapture, EscrowTables.ApplyRefund, Reconcile, Reconciled, Advanced;
    CaptureIgnoresTheInbox(db, db', e, e');
    RefundIgnoresTheInbox(db, db', e, e');
  }
}
