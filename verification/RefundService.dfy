/** The initiation of refunds and of payments: our row first, then the provider's reference on it. */
module RefundServices {
  import opened Common
  import opened BookingFsm
  import opened Bookings
  import opened EscrowTables
  import opened EscrowInvariant
  import opened EscrowProtocol
  import opened EscrowSteps
  import opened EscrowTheorems
  import opened EscrowRefunds
  import opened Persistence
  import opened Repositories

  class RefundService {
    const db: Database
    const payments: PaymentRepository

    constructor (db: Database)
      ensures this.db == db && Wired()
    {
      this.db := db;
      payments := new PaymentRepository(db);
    }

    predicate Wired() {
      payments.db == db
    }

    /** What a refund job would ask back: the unrefunded rest of the latest captured payment without a live refund. */
    ghost function Due(tables: Tables, b: nat): Option<nat> {
      var p := CapturedForBooking(tables.payments, b);
      if p.Some? && tables.payments[p.value].intent.Some? && !HasLiveRefund(tables.refunds, p.value)
         && tables.payments[p.value].amount > tables.payments[p.value].refunded
      then p else None
    }

    // The job reads the payment, looks for a refund and inserts one in three statements.
    // Each part is stated from any store in which the parts before it have been done.

    /** Read the latest captured payment with an intent, and what is left of it. */
    method FindPayment(b: nat, ghost w: nat) returns (found: Option<(nat, int)>)
      requires db.Valid() && db.Idle(w) && CreateRefund(b) in db.jobs
      modifies db`trace
      ensures db.Valid() && old(db.trace) <= db.trace
      ensures found.Some? <==>
        CapturedForBooking(db.payments, b).Some? && db.payments[CapturedForBooking(db.payments, b).value].intent.Some?
      ensures found.Some? ==>
        && Some(found.value.0) == CapturedForBooking(db.payments, b)
        && found.value.1 == db.payments[found.value.0].amount - db.payments[found.value.0].refunded
        && db.WorkerAt(w, FoundCaptured(found.value.0, found.value.1))
      ensures found.None? ==> db.Idle(w)
    {
      hide Run, Next;
      var payment := CapturedForBooking(db.payments, b);
      if payment.None? || db.payments[payment.value].intent.None? {
        return None;
      }
      var p := payment.value;
      RefundCheckSteps(db.fsm, db.Last(), w, b);
      db.Log(StartRefund(w, b));
      return Some((p, db.payments[p].amount - db.payments[p].refunded));
    }

    /** Stop if the payment has a live refund by now, or nothing was left of it. */
    method CheckRefunds(p: nat, remaining: int, ghost w: nat) returns (due: bool)
      requires db.Valid() && db.WorkerAt(w, FoundCaptured(p, remaining))
      modifies db`trace
      ensures db.Valid() && old(db.trace) <= db.trace
      ensures due <==>
        && remaining > 0
        && forall r :: 0 <= r < |db.refunds| && db.refunds[r].paymentId == p ==>
             db.refunds[r].status !in {RefundStatus.Pending, RefundStatus.Succeeded}
      ensures if due then db.WorkerAt(w, NoRefundYet(p, remaining)) else db.Idle(w)
    {
      hide Run, Next;
      RefundCheckSteps(db.fsm, db.Last(), w, 0);
      db.Log(CheckRefund(w));
      due := !HasLiveRefund(db.refunds, p) && remaining > 0;
    }

    /** A payment without a live refund has no refund at all, and is unrefunded. */
    lemma NoRefundAtAll(p: nat)
      requires db.Valid() && p < |db.payments| && !HasLiveRefund(db.refunds, p) && Refundable(db.payments[p].status)
      ensures db.payments[p].refunded == 0 < db.payments[p].amount
      ensures forall r :: 0 <= r < |db.refunds| ==> db.refunds[r].paymentId != p
    {
      var n := |db.trace| - 1;
      RunStaysWhole(db.fsm, db.trace, n);
      RunInv(db.fsm, db.trace, n);
      RefundedInFullOrNot(db.Last(), p);
      assert PaymentOk(db.Contents(), p);
      forall r | 0 <= r < |db.refunds| ensures db.refunds[r].paymentId != p {
        assert WholeRefund(db.Contents(), r);
      }
    }

    /**
     * One create-refund job with nothing between its parts. When a refund is due it
     * appends one pending refund of the whole payment and, if the provider answers,
     * its reference on that row and on no other; it throws exactly if the provider
     * does not answer. When none is due it does nothing.
     */
    method CreateForBooking(b: nat, answer: Option<string>, ghost w: nat) returns (thrown: bool)
      requires Wired() && db.Valid() && db.Idle(w) && CreateRefund(b) in db.jobs
      modifies db`refunds, db`trace
      ensures db.Valid() && old(db.trace) <= db.trace && db.Idle(w)
      ensures thrown <==> Due(old(db.Contents()), b).Some? && answer.None?
      ensures
        var p := Due(old(db.Contents()), b);
        db.refunds == old(db.refunds)
                      + if p.None? then []
                        else [Refund(p.value, answer, RefundStatus.Pending, db.payments[p.value].amount, db.payments[p.value].currency)]
    {
      hide Run, Next;
      var found := FindPayment(b, w);
      if found.None? {
        return false;
      }
      var due := CheckRefunds(found.value.0, found.value.1, w);
      if !due {
        return false;
      }
      NoRefundAtAll(found.value.0);
      thrown := RequestRefund(found.value.0, found.value.1, answer, w);
    }

    /** Insert the refund row, ask the provider, attach its reference: whatever has happened since the check. */
    method RequestRefund(p: nat, remaining: int, answer: Option<string>, ghost w: nat) returns (thrown: bool)
      requires Wired() && db.Valid() && p < |db.payments| && remaining > 0
      requires db.WorkerAt(w, NoRefundYet(p, remaining))
      modifies db`refunds, db`trace
      ensures db.Valid() && old(db.trace) <= db.trace && db.Idle(w)
      ensures thrown <==> answer.None? || RefundRefTaken(old(db.refunds), |old(db.refunds)|, p, answer.value)
      ensures db.refunds == old(db.refunds)
                            + [Refund(p, if thrown then None else answer, RefundStatus.Pending, remaining, db.payments[p].currency)]
    {
      hide Run, Next;
      RefundSteps(db.fsm, db.Last(), w, "");
      var refund := payments.CreateRefund(p, remaining, db.payments[p].currency);
      db.Log(InsertRefundRow(w));
      if answer.None? {
        EnvironmentSteps(db.fsm, db.Last(), w, 0);
        db.Log(Crash(w));
        return true;
      }
      assert RefundRefTaken(db.refunds, refund.value, p, answer.value) <==> RefundRefTaken(old(db.refunds), refund.value, p, answer.value) by {
        assert forall k :: 0 <= k < |old(db.refunds)| ==> db.refunds[k] == old(db.refunds)[k];
      }
      var attached := AskProvider(refund.value, answer.value, w);
      var row := Refund(p, if attached then answer else None, RefundStatus.Pending, remaining, db.payments[p].currency);
      assert db.refunds == old(db.refunds) + [row];
      return !attached;
    }

    /** The provider accepts the request under a reference, which is attached to the row and to no other. */
    method AskProvider(refund: nat, ref: string, ghost w: nat) returns (attached: bool)
      requires Wired() && db.Valid() && refund < |db.refunds| && db.WorkerAt(w, RefundInserted(refund))
      modifies db`refunds, db`trace
      ensures db.Valid() && old(db.trace) <= db.trace && db.Idle(w)
      ensures attached <==> !RefundRefTaken(old(db.refunds), refund, old(db.refunds)[refund].paymentId, ref)
      ensures db.refunds == if attached then old(db.refunds)[refund := old(db.refunds)[refund].(providerRef := Some(ref))]
                            else old(db.refunds)
    {
      hide Run, Next;
      RefundSteps(db.fsm, db.Last(), w, ref);
      db.Log(AcceptRefund(w, ref));
      RefundSteps(db.fsm, db.Last(), w, ref);
      var r := payments.AttachProviderRefund(refund, ref);
      db.Log(AttachRefund(w));
      attached := r.Wrote?;
    }
  }

  datatype InitiateError = BookingNotFound | NotAwaitingPayment | HoldExpired | StatementFailed | ProviderFailed

  /** The payment rows once the key has a row: a new one is for the whole total of the booking, with the provider asked for. */
  function WithRow(payments: seq<Payment>, b: nat, booking: Booking, provider: Provider, key: string): seq<Payment> {
    if PaymentByKey(payments, key).Some? then payments
    else payments + [Payment(b, provider, key, None, PaymentStatus.Initiated, booking.money.total, booking.currency, 0)]
  }

  /** The row of a key, old or new. */
  function RowOf(payments: seq<Payment>, key: string): nat {
    if PaymentByKey(payments, key).Some? then PaymentByKey(payments, key).value else |payments|
  }

  /** The row waits for its intent. */
  predicate Unattached(p: Payment) {
    p.status == PaymentStatus.Initiated && p.intent.None?
  }

  /** Another payment of the same provider has the intent. */
  predicate HeldByOther(payments: seq<Payment>, id: nat, intent: string)
    requires id < |payments|
  {
    exists k :: 0 <= k < |payments| && k != id && payments[k].provider == payments[id].provider && payments[k].intent == Some(intent)
  }

  class PaymentService {
    const db: Database
    const payments: PaymentRepository

    constructor (db: Database)
      ensures this.db == db && Wired()
    {
      this.db := db;
      payments := new PaymentRepository(db);
    }

    predicate Wired() {
      payments.db == db
    }

    /** Why no payment can be started, before any row is written; None if one can. */
    ghost function Refusal(b: nat, appNow: int): Option<InitiateError>
      reads db
    {
      if b >= |db.bookings| then Some(BookingNotFound)
      else if db.bookings[b].status != PendingPayment then Some(NotAwaitingPayment)
      else if db.bookings[b].holdExpiresAt <= appNow then Some(InitiateError.HoldExpired)
      else if db.bookings[b].money.total <= 0 then Some(StatementFailed)
      else None
    }

    /**
     * Start a payment for a held booking, at most one row per idempotency key. It
     * succeeds exactly for a live hold with a price, if the row of the key needs no
     * intent, or the provider answers with one that no other payment of it has. Then the
     * row has that intent and awaits the guest, and an event about the intent finds it.
     * A retry after a crash finds the row and attaches an intent only if it has none.
     * The row returned is this booking's exactly if the key is new or was this booking's
     * before, and it can still be paid exactly if the key is new or its row had not
     * failed, been voided or been captured: a retry after a failure gets the dead row.
     */
    method Initiate(b: nat, provider: Provider, key: string, answer: Option<string>, appNow: int)
      returns (r: Result<nat, InitiateError>)
      requires Wired() && db.Valid()
      modifies db`payments, db`trace
      ensures db.Valid() && old(db.trace) <= db.trace
      ensures old(Refusal(b, appNow)).Some? ==> r == Failure(old(Refusal(b, appNow)).value) && db.payments == old(db.payments)
      ensures old(Refusal(b, appNow)).None? ==>
        var rows, id := WithRow(old(db.payments), b, db.bookings[b], provider, key), RowOf(old(db.payments), key);
        && id < |rows|
        && if !Unattached(rows[id]) then r == Success(id) && db.payments == rows
           else if answer.None? then r == Failure(ProviderFailed) && db.payments == rows
           else if HeldByOther(rows, id, answer.value) then r == Failure(StatementFailed) && db.payments == rows
           else
             && r == Success(id) && db.payments == rows[id := rows[id].(intent := answer, status := PaymentStatus.RequiresAction)]
             && PaymentByIntent(db.payments, db.payments[id].provider, answer.value) == Some(id)
      ensures r.Success? ==>
        && r.value < |db.payments| && db.payments[r.value].key == key
        && (db.payments[r.value].bookingId == b <==>
              PaymentByKey(old(db.payments), key).None? || old(db.payments)[PaymentByKey(old(db.payments), key).value].bookingId == b)
        && (Capturable(db.payments[r.value].status) <==>
              PaymentByKey(old(db.payments), key).None? || Capturable(old(db.payments)[PaymentByKey(old(db.payments), key).value].status))
    {
      hide Run, Next;
      if b >= |db.bookings| {
        return Failure(BookingNotFound);
      }
      var booking := db.bookings[b];
      if booking.status != PendingPayment {
        return Failure(NotAwaitingPayment);
      }
      if booking.holdExpiresAt <= appNow {
        return Failure(InitiateError.HoldExpired);
      }
      var row, created := CreateRow(b, provider, key);
      if row.Failure? {
        return Failure(StatementFailed);
      }
      var payment := db.payments[row.value];
      if !created && !(payment.status == PaymentStatus.Initiated && payment.intent.None?) {
        return Success(row.value);
      }
      r := ObtainIntent(row.value, answer);
    }

    /** The row with this key: the one there is, or a new one for the whole of this booking's total. */
    method CreateRow(b: nat, provider: Provider, key: string) returns (row: Result<nat, ()>, created: bool)
      requires Wired() && db.Valid() && b < |db.bookings|
      modifies db`payments, db`trace
      ensures db.Valid() && old(db.trace) <= db.trace
      ensures row.Failure? <==> db.bookings[b].money.total <= 0
      ensures row.Failure? ==> db.payments == old(db.payments) && !created
      ensures row.Success? ==>
        && row.value == RowOf(old(db.payments), key)
        && db.payments == WithRow(old(db.payments), b, db.bookings[b], provider, key)
        && row.value < |db.payments| && created == PaymentByKey(old(db.payments), key).None?
    {
      hide Run, Next;
      var booking := db.bookings[b];
      row, created := payments.CreateIdempotent(b, provider, key, booking.money.total, booking.currency);
      if created {
        InitiationSteps(db.fsm, db.Last(), b, provider, key, 0, "");
        db.Log(Step.Initiate(b, provider, key));
      }
    }

    /** Ask the provider for an intent and attach it to the row, which waits for one. */
    method ObtainIntent(p: nat, answer: Option<string>) returns (r: Result<nat, InitiateError>)
      requires Wired() && db.Valid() && p < |db.payments| && Unattached(db.payments[p])
      modifies db`payments, db`trace
      ensures db.Valid() && old(db.trace) <= db.trace
      ensures r == if answer.None? then Failure(ProviderFailed)
                   else if HeldByOther(old(db.payments), p, answer.value) then Failure(StatementFailed) else Success(p)
      ensures r.Failure? ==> db.payments == old(db.payments)
      ensures r.Success? ==>
        && db.payments == old(db.payments)[p := old(db.payments)[p].(intent := answer, status := PaymentStatus.RequiresAction)]
        && PaymentByIntent(db.payments, db.payments[p].provider, answer.value) == Some(p)
    {
      hide Run, Next;
      if answer.None? {
        return Failure(ProviderFailed);
      }
      var attached := payments.AttachProviderIntent(p, answer.value);
      if attached.Rejected? {
        return Failure(StatementFailed);
      }
      InitiationSteps(db.fsm, db.Last(), 0, Mock, "", p, answer.value);
      db.Log(Attach(p, answer.value));
      return Success(p);
    }
  }
}
