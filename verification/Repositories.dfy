/**
 * The repositories: every statement updates the store in place, and is proved to
 * leave exactly the tables that the machine's function for that statement describes.
 */
module Repositories {
  import opened Common
  import opened BookingFsm
  import opened Bookings
  import opened Ledger
  import opened EscrowTables
  import opened Persistence

  /** The kind of a write's outcome, without its value. */
  function Kind<T>(w: Write<T>): Write<()> {
    match w
    case Wrote(_) => Wrote(())
    case NoRow => NoRow
    case Rejected => Rejected
  }

  class LedgerService {
    const db: Database

    constructor (db: Database)
      ensures this.db == db
    {
      this.db := db;
    }

    /**
     * The service's own check, then one INSERT per positive leg. The deferred trigger
     * still judges the group at COMMIT.
     */
    method PostGroup(currency: string, legs: seq<Leg>) returns (r: Result<nat, PostError>)
      modifies db`ledger
      ensures r.Failure? <==> Sum(legs, DebitW()) != Sum(legs, CreditW()) || |legs| < 2
      ensures r.Failure? ==> db.ledger == old(db.ledger)
      ensures r.Success? ==>
        && r.value == NewGroup(old(db.ledger))
        && db.ledger == old(db.ledger) + Rows(r.value, currency, Positive(legs))
    {
      var debits, credits := Sum(legs, DebitW()), Sum(legs, CreditW());
      if debits != credits || |legs| < 2 {
        return Failure(InvariantViolation);
      }
      var group := NewGroup(db.ledger);
      for i := 0 to |legs|
        invariant db.ledger == old(db.ledger) + Rows(group, currency, Positive(legs[..i]))
      {
        assert legs[..i + 1][..i] == legs[..i];
        if legs[i].amount <= 0 {
          continue;
        }
        db.ledger := db.ledger + [Entry(group, currency, legs[i])];
        assert Rows(group, currency, Positive(legs[..i + 1])) == Rows(group, currency, Positive(legs[..i])) + [Entry(group, currency, legs[i])];
      }
      assert legs[..|legs|] == legs;
      return Success(group);
    }

    /** Post one group and ask for COMMIT: the tables are those of the machine's posting, or the caller must roll back. */
    method PostAndCommit(currency: string, legs: seq<Leg>) returns (ok: bool)
      modifies db`ledger
      ensures ok <==> Ledger.PostGroup(old(db.ledger), currency, legs).Success?
      ensures ok ==> db.ledger == Ledger.PostGroup(old(db.ledger), currency, legs).value
    {
      var group := PostGroup(currency, legs);
      ok := group.Success? && GroupBalanced(db.ledger, group.value);
    }
  }

  class PaymentRepository {
    const db: Database

    constructor (db: Database)
      ensures this.db == db
    {
      this.db := db;
    }

    /** The payment with this idempotency key, inserted if there was none. */
    method CreateIdempotent(bookingId: nat, provider: Provider, key: string, amount: int, currency: string)
      returns (r: Result<nat, ()>, created: bool)
      modifies db`payments
      ensures created == InsertPayment(old(db.Contents()), bookingId, provider, key, amount, currency).Wrote?
      ensures db.Contents() == After(old(db.Contents()), InsertPayment(old(db.Contents()), bookingId, provider, key, amount, currency))
      ensures r.Failure? <==> InsertPayment(old(db.Contents()), bookingId, provider, key, amount, currency).Rejected?
      ensures r.Success? ==> r.value < |db.payments| && db.payments[r.value].key == key
      ensures r.Success? && !created ==> Some(r.value) == PaymentByKey(old(db.payments), key)
      ensures created ==> r == Success(|old(db.payments)|)
    {
      if amount <= 0 {
        return Failure(()), false;
      }
      var existing := PaymentByKey(db.payments, key);
      if existing.Some? {
        return Success(existing.value), false;
      }
      if bookingId >= |db.bookings| || db.bookings[bookingId].currency != currency {
        return Failure(()), false;
      }
      var id := |db.payments|;
      db.payments := db.payments + [Payment(bookingId, provider, key, None, PaymentStatus.Initiated, amount, currency, 0)];
      return Success(id), true;
    }

    method AttachProviderIntent(id: nat, intent: string) returns (r: Write<()>)
      modifies db`payments
      ensures r == Kind(AttachIntent(old(db.Contents()), id, intent))
      ensures db.Contents() == After(old(db.Contents()), AttachIntent(old(db.Contents()), id, intent))
    {
      if id >= |db.payments| || db.payments[id].status != PaymentStatus.Initiated {
        return NoRow;
      }
      var holder := PaymentByIntent(db.payments, db.payments[id].provider, intent);
      if holder.Some? && holder.value != id {
        return Rejected;
      }
      db.payments := db.payments[id := db.payments[id].(intent := Some(intent), status := PaymentStatus.RequiresAction)];
      return Wrote(());
    }

    method MarkCaptured(id: nat) returns (captured: bool)
      modifies db`payments
      ensures captured == EscrowTables.MarkCaptured(old(db.Contents()), id).Wrote?
      ensures db.Contents() == After(old(db.Contents()), EscrowTables.MarkCaptured(old(db.Contents()), id))
    {
      captured := id < |db.payments| && Capturable(db.payments[id].status);
      if captured {
        db.payments := db.payments[id := db.payments[id].(status := PaymentStatus.Captured)];
      }
    }

    method MarkFailed(id: nat)
      modifies db`payments
      ensures db.Contents() == After(old(db.Contents()), MarkPaymentFailed(old(db.Contents()), id))
    {
      if id < |db.payments| && Capturable(db.payments[id].status) {
        db.payments := db.payments[id := db.payments[id].(status := PaymentStatus.Failed)];
      }
    }

    method CreateRefund(paymentId: nat, amount: int, currency: string) returns (r: Result<nat, ()>)
      modifies db`refunds
      ensures r.Success? == InsertRefund(old(db.Contents()), paymentId, amount, currency).Wrote?
      ensures r.Success? ==> r.value == |old(db.refunds)|
      ensures db.Contents() == After(old(db.Contents()), InsertRefund(old(db.Contents()), paymentId, amount, currency))
    {
      if amount <= 0 || paymentId >= |db.payments| || db.payments[paymentId].currency != currency {
        return Failure(());
      }
      var id := |db.refunds|;
      db.refunds := db.refunds + [Refund(paymentId, None, RefundStatus.Pending, amount, currency)];
      return Success(id);
    }

    method AttachProviderRefund(id: nat, ref: string) returns (r: Write<()>)
      modifies db`refunds
      ensures r == Kind(AttachRefundRef(old(db.Contents()), id, ref))
      ensures db.Contents() == After(old(db.Contents()), AttachRefundRef(old(db.Contents()), id, ref))
    {
      if id >= |db.refunds| {
        return NoRow;
      }
      if RefundRefTaken(db.refunds, id, db.refunds[id].paymentId, ref) {
        return Rejected;
      }
      db.refunds := db.refunds[id := db.refunds[id].(providerRef := Some(ref))];
      return Wrote(());
    }

    /**
     * Two statements: the refund row, then the payment's counter and derived status.
     * The second can violate the payment's CHECK after the first has written.
     */
    method SettleRefund(paymentId: nat, ref: string) returns (r: Write<int>)
      requires paymentId < |db.payments|
      modifies db`refunds, db`payments
      ensures
        var pending := PendingRefund(old(db.refunds), paymentId, ref);
        && (r.NoRow? <==> pending.None?)
        && (pending.None? ==> db.Contents() == old(db.Contents()))
        && (pending.Some? ==>
              && Kind(r) == Kind(SettleRefundRow(old(db.Contents()), pending.value))
              && (r.Wrote? ==>
                    && db.Contents() == SettleRefundRow(old(db.Contents()), pending.value).value
                    && r.value == old(db.refunds)[pending.value].amount))
    {
      var pending := PendingRefund(db.refunds, paymentId, ref);
      if pending.None? {
        return NoRow;
      }
      var amount := db.refunds[pending.value].amount;
      db.refunds := db.refunds[pending.value := db.refunds[pending.value].(status := RefundStatus.Succeeded)];
      var p := db.payments[paymentId];
      if p.refunded + amount > p.amount {
        return Rejected;
      }
      var status := if p.refunded + amount >= p.amount then PaymentStatus.Refunded else PaymentStatus.PartiallyRefunded;
      db.payments := db.payments[paymentId := p.(refunded := p.refunded + amount, status := status)];
      return Wrote(amount);
    }
  }

  class PayoutRepository {
    const db: Database

    constructor (db: Database)
      ensures this.db == db
    {
      this.db := db;
    }

    /** At most one payout per booking: the second insert finds the first. */
    method CreateIfAbsent(bookingId: nat, amount: int, currency: string, provider: Provider) returns (r: Write<nat>)
      modifies db`payouts
      ensures Kind(r) == Kind(InsertPayout(old(db.Contents()), bookingId, amount, currency, provider))
      ensures r.Wrote? ==> r.value == |old(db.payouts)|
      ensures db.Contents() == After(old(db.Contents()), InsertPayout(old(db.Contents()), bookingId, amount, currency, provider))
    {
      if amount <= 0 {
        return Rejected;
      }
      if PayoutByBooking(db.payouts, bookingId).Some? {
        return NoRow;
      }
      if bookingId >= |db.bookings| || db.bookings[bookingId].currency != currency {
        return Rejected;
      }
      var id := |db.payouts|;
      db.payouts := db.payouts + [Payout(bookingId, PayoutStatus.Pending, amount, currency, provider, None)];
      return Wrote(id);
    }

    method MarkInTransit(id: nat, provider: Provider, transfer: string) returns (moving: bool)
      modifies db`payouts
      ensures moving == EscrowTables.MarkInTransit(old(db.Contents()), id, provider, transfer).Wrote?
      ensures db.Contents() == After(old(db.Contents()), EscrowTables.MarkInTransit(old(db.Contents()), id, provider, transfer))
    {
      moving := id < |db.payouts| && db.payouts[id].status == PayoutStatus.Pending;
      if moving {
        db.payouts := db.payouts[id :=
          db.payouts[id].(status := PayoutStatus.InTransit, provider := provider, transfer := Some(transfer))];
      }
    }

    /** The guarded status UPDATE that every other payout move is. */
    method Move(id: nat, from: set<PayoutStatus>, to: PayoutStatus) returns (moved: bool)
      modifies db`payouts
      ensures moved == MovePayout(old(db.Contents()), id, from, to).Wrote?
      ensures db.Contents() == After(old(db.Contents()), MovePayout(old(db.Contents()), id, from, to))
    {
      moved := id < |db.payouts| && db.payouts[id].status in from;
      if moved {
        db.payouts := db.payouts[id := db.payouts[id].(status := to)];
      }
    }

    method MarkPaid(id: nat) returns (paid: bool)
      modifies db`payouts
      ensures paid == EscrowTables.MarkPaid(old(db.Contents()), id).Wrote?
      ensures db.Contents() == After(old(db.Contents()), EscrowTables.MarkPaid(old(db.Contents()), id))
    {
      paid := Move(id, {PayoutStatus.InTransit}, PayoutStatus.Paid);
    }

    method MarkFailed(id: nat)
      modifies db`payouts
      ensures db.Contents() == After(old(db.Contents()), MarkPayoutFailed(old(db.Contents()), id))
    {
      var _ := Move(id, {PayoutStatus.Pending, PayoutStatus.InTransit}, PayoutStatus.Failed);
    }
  }

  class WebhookRepository {
    const db: Database

    constructor (db: Database)
      ensures this.db == db
    {
      this.db := db;
    }

    /** The new record, or None when this provider's event id was already recorded. */
    method Record(e: Event, signatureValid: bool) returns (id: Option<nat>)
      modifies db`events
      ensures id.Some? == RecordEvent(old(db.Contents()), e, signatureValid).Wrote?
      ensures id.Some? ==> id.value == |old(db.events)|
      ensures db.Contents() == After(old(db.Contents()), RecordEvent(old(db.Contents()), e, signatureValid))
    {
      if Recorded(db.events, e.provider, e.eventId) {
        return None;
      }
      id := Some(|db.events|);
      var status := if signatureValid then WebhookStatus.Received else WebhookStatus.Skipped;
      db.events := db.events + [e.(status := status, attempts := 0)];
    }

    method ClaimForProcessing(id: nat) returns (claimed: bool)
      modifies db`events
      ensures claimed == ClaimEvent(old(db.Contents()), id).Wrote?
      ensures db.Contents() == After(old(db.Contents()), ClaimEvent(old(db.Contents()), id))
    {
      claimed := id < |db.events| && db.events[id].status in {WebhookStatus.Received, WebhookStatus.Failed};
      if claimed {
        var e := db.events[id];
        db.events := db.events[id := e.(status := WebhookStatus.Processing, attempts := e.attempts + 1)];
      }
    }

    /** markProcessed, markFailed and markSkipped: unconditional on the current status. */
    method Mark(id: nat, status: WebhookStatus)
      modifies db`events
      ensures db.Contents() == After(old(db.Contents()), MarkEvent(old(db.Contents()), id, status))
    {
      if id < |db.events| {
        db.events := db.events[id := db.events[id].(status := status)];
      }
    }
  }

  class BookingRepository {
    const db: Database

    constructor (db: Database)
      ensures this.db == db
    {
      this.db := db;
    }

    /** The INSERT of a hold: its CHECKs, the host-block trigger, the exclusion constraint. */
    method InsertHold(row: Booking) returns (r: Write<nat>)
      modifies db`bookings
      ensures Kind(r) == Kind(Bookings.InsertHold(old(db.bookings), db.blocks, row, db.now))
      ensures r.Wrote? ==>
        && r.value == |old(db.bookings)|
        && db.bookings == Bookings.InsertHold(old(db.bookings), db.blocks, row, db.now).value
      ensures !r.Wrote? ==> db.bookings == old(db.bookings)
    {
      if !InsertChecks(row) || HasConflict(db.bookings, db.blocks, row.unit, row.checkIn, row.checkOut, row.turnaroundMinutes) {
        return Rejected;
      }
      var id := |db.bookings|;
      db.bookings := db.bookings + [row.(status := PendingPayment, history := [Stamp(PendingPayment, db.now)])];
      return Wrote(id);
    }

    /** An UPDATE of one row's status, as the triggers and the exclusion constraint let it through. */
    method UpdateStatus(id: nat, to: Status) returns (r: Write<()>)
      requires id < |db.bookings|
      modifies db`bookings
      ensures r == Kind(SetStatus(old(db.bookings), db.blocks, db.fsm, id, to, db.now))
      ensures r.Wrote? ==> db.bookings == SetStatus(old(db.bookings), db.blocks, db.fsm, id, to, db.now).value
      ensures !r.Wrote? ==> db.bookings == old(db.bookings)
    {
      var b := db.bookings[id];
      var hi := BlockEnd(b.checkOut, b.turnaroundMinutes);
      if b.status != to && (b.status, to) !in db.fsm {
        return Rejected;
      }
      if Blocking(to) && HostBlocked(db.blocks, b.unit, b.checkIn, hi) {
        return Rejected;
      }
      if b.status == to {
        return Wrote(());
      }
      if Blocking(to) && OtherRowBlocks(db.bookings, id, b.unit, b.checkIn, hi) {
        return Rejected;
      }
      db.bookings := db.bookings[id := b.(status := to, history := b.history + [Stamp(to, db.now)])];
      return Wrote(());
    }

    /** `transition` and `cancel`: a compare-and-swap on the status. */
    method Transition(id: nat, from: Status, to: Status) returns (r: Write<()>)
      modifies db`bookings
      ensures r == Kind(Bookings.Transition(old(db.bookings), db.blocks, db.fsm, id, from, to, db.now))
      ensures r.Wrote? ==> db.bookings == Bookings.Transition(old(db.bookings), db.blocks, db.fsm, id, from, to, db.now).value
      ensures !r.Wrote? ==> db.bookings == old(db.bookings)
    {
      if id >= |db.bookings| || db.bookings[id].status != from {
        return NoRow;
      }
      r := UpdateStatus(id, to);
    }

    method ConfirmHold(id: nat) returns (r: Write<()>)
      modifies db`bookings
      ensures r == Kind(Bookings.ConfirmHold(old(db.bookings), db.blocks, db.fsm, id, db.now))
      ensures r.Wrote? ==> db.bookings == Bookings.ConfirmHold(old(db.bookings), db.blocks, db.fsm, id, db.now).value
      ensures !r.Wrote? ==> db.bookings == old(db.bookings)
    {
      if id >= |db.bookings| || db.bookings[id].status != PendingPayment || db.bookings[id].holdExpiresAt <= db.now {
        return NoRow;
      }
      r := UpdateStatus(id, Confirmed);
    }

    method ExpireIfLapsed(id: nat) returns (r: Write<()>)
      modifies db`bookings
      ensures r == Kind(Bookings.ExpireIfLapsed(old(db.bookings), db.blocks, db.fsm, id, db.now))
      ensures r.Wrote? ==> db.bookings == Bookings.ExpireIfLapsed(old(db.bookings), db.blocks, db.fsm, id, db.now).value
      ensures !r.Wrote? ==> db.bookings == old(db.bookings)
    {
      if id >= |db.bookings| || db.bookings[id].status != PendingPayment || db.bookings[id].holdExpiresAt > db.now {
        return NoRow;
      }
      r := UpdateStatus(id, Expired);
    }
  }
}
