/**
 * The inductive invariant of the escrow machine and its preservation by every step,
 * under every whitelist. What the funding of refunds and payouts needs of a whitelist
 * is a condition inside the invariant.
 *
 * The proof has three layers: what a worker relies on survives every later state
 * (`WorkerStaysOk`), every statement and transaction keeps the tables sound, and every
 * step, which moves one worker and issues at most one of them, keeps both (`Settled`).
 */
module EscrowSafety {
  import opened BookingFsm
  import opened Bookings
  import opened Ledger
  import opened EscrowTables
  import opened EscrowInvariant
  import opened EscrowProtocol

  // ---- what a worker may rely on ----

  /** The stay can no longer take place: released, or awaiting payment past its deadline. */
  predicate StayIsOff(b: Booking, now: int) {
    Released(b.status) || (b.status == PendingPayment && b.holdExpiresAt <= now)
  }

  /** Under a safe whitelist, a stay that was seen off stays off; under any other nothing is promised. */
  ghost predicate NoStay(fsm: set<Edge>, db: Tables, now: int, b: nat) {
    b < |db.bookings| && (SafeFsm(fsm) ==> StayIsOff(db.bookings[b], now))
  }

  /** Under a safe whitelist, a stay that was seen completed still is. */
  ghost predicate Finished(fsm: set<Edge>, db: Tables, b: nat) {
    b < |db.bookings| && (SafeFsm(fsm) ==> db.bookings[b].status == Completed)
  }

  predicate CapturedFor(db: Tables, p: nat, b: nat) {
    p < |db.payments| && db.payments[p].bookingId == b && IsCaptured(db.payments[p].status)
  }

  /** A payment of the booking whose fate is decided: its money is in, or never will be. */
  predicate DecidedFor(db: Tables, p: nat, b: nat) {
    && b < |db.bookings| && p < |db.payments| && db.payments[p].bookingId == b
    && (IsCaptured(db.payments[p].status) || Dead(db.payments[p].status))
  }

  /** What each program counter guarantees about the tables, however long ago its reads were. */
  ghost predicate WorkerOk(fsm: set<Edge>, db: Tables, now: int, worker: Worker) {
    && (HandlesEvent(worker) ==> worker.event < |db.events|)
    && match worker
       case EventRecorded(e) => e < |db.events|
       case CaptureApplied(_, b, p) => DecidedFor(db, p, b)
       case SawPending(_, b, p) => DecidedFor(db, p, b)
       case ReadyToConfirm(_, b, p) => DecidedFor(db, p, b)
       case ConfirmLost(_, b) =>
         && b < |db.bookings|
         && (SafeFsm(fsm) ==> db.bookings[b].status != PendingPayment || db.bookings[b].holdExpiresAt <= now)
       case HoldExpired(_, b) => NoStay(fsm, db, now, b)
       case RefundApplied(_, b) => b < |db.bookings|
       case SawCancelled(_, b) => NoStay(fsm, db, now, b)
       case ReadyToMarkRefunded(_, b, from) => NoStay(fsm, db, now, b) && (SafeFsm(fsm) ==> Released(from) || from == PendingPayment)
       case ReadyToCancel(b, from) => b < |db.bookings| && (from, Status.Cancelled) in fsm
       case CancelCommitted(b) => NoStay(fsm, db, now, b)
       case ReadyToMove(b, from, to) => b < |db.bookings| && (from, to) in fsm && to in {CheckedIn, Completed}
       case CompletionCommitted(b) => Finished(fsm, db, b)
       case SawCompleted(b) => Finished(fsm, db, b)
       case FoundFunds(b, p) => Finished(fsm, db, b) && CapturedFor(db, p, b)
       case SplitCommitted(q) => q < |db.payouts|
       case SawPayoutPending(q) => q < |db.payouts|
       case TransferMade(q, _, _) => q < |db.payouts|
       case PayoutMoving(q, _) => q < |db.payouts|
       case TransferThrew(q) => q < |db.payouts|
       case FoundCaptured(p, remaining) =>
         p < |db.payments| && CapturedFor(db, p, db.payments[p].bookingId)
         && NoStay(fsm, db, now, db.payments[p].bookingId) && remaining <= db.payments[p].amount
       case NoRefundYet(p, remaining) =>
         p < |db.payments| && CapturedFor(db, p, db.payments[p].bookingId)
         && NoStay(fsm, db, now, db.payments[p].bookingId) && remaining <= db.payments[p].amount
       case RefundInserted(r) => r < |db.refunds|
       case RefundAccepted(r, _) => r < |db.refunds|
       case _ => true
  }

  ghost predicate JobOk(fsm: set<Edge>, db: Tables, now: int, job: Job) {
    match job
    case ProcessWebhook(e) => e < |db.events|
    case CreatePayout(b) => Finished(fsm, db, b)
    case ExecutePayout(q) => q < |db.payouts|
    case CreateRefund(b) => NoStay(fsm, db, now, b)
  }

  /** Refunds belong to stays that cannot take place; payouts to finished stays that were paid for. */
  ghost predicate Funded(fsm: set<Edge>, db: Tables, now: int) {
    && (forall p :: 0 <= p < |db.payments| ==> PaidInFull(db, p))
    && (forall r :: 0 <= r < |db.refunds| ==> RefundJustified(fsm, db, now, r))
    && (forall q :: 0 <= q < |db.payouts| ==> PayoutJustified(fsm, db, q))
  }

  /** A payment is for the whole total of its booking. */
  ghost predicate PaidInFull(db: Tables, p: nat)
    requires p < |db.payments|
  {
    db.payments[p].bookingId < |db.bookings| && db.payments[p].amount == db.bookings[db.payments[p].bookingId].money.total
  }

  ghost predicate RefundJustified(fsm: set<Edge>, db: Tables, now: int, r: nat)
    requires r < |db.refunds|
  {
    db.refunds[r].paymentId < |db.payments| && NoStay(fsm, db, now, db.payments[db.refunds[r].paymentId].bookingId)
  }

  ghost predicate PayoutJustified(fsm: set<Edge>, db: Tables, q: nat)
    requires q < |db.payouts|
  {
    Finished(fsm, db, db.payouts[q].bookingId) && exists p :: CapturedFor(db, p, db.payouts[q].bookingId)
  }

  ghost predicate DbInv(fsm: set<Edge>, db: Tables, now: int) {
    EscrowOk(db) && BookingsOk(fsm, db.bookings, now) && NoDoubleBooking(db.bookings) && Funded(fsm, db, now)
  }

  ghost predicate Inv(fsm: set<Edge>, s: State) {
    && DbInv(fsm, s.db, s.now)
    && (forall w :: w in s.workers ==> WorkerOk(fsm, s.db, s.now, s.workers[w]))
    && (forall job :: job in s.jobs ==> JobOk(fsm, s.db, s.now, job))
  }

  // ---- what never goes back ----

  ghost predicate PaymentGrows(p: Payment, p': Payment) {
    && p'.bookingId == p.bookingId && p'.amount == p.amount && p'.currency == p.currency && p'.provider == p.provider
    && (IsCaptured(p.status) ==> IsCaptured(p'.status))
    && (Dead(p.status) ==> p'.status == p.status)
    && (p.intent.Some? ==> p'.intent == p.intent)
    && p.refunded <= p'.refunded
  }

  ghost predicate RefundGrows(r: Refund, r': Refund) {
    && r'.paymentId == r.paymentId && r'.amount == r.amount
    && (r'.status == r.status || r'.status == RefundStatus.Succeeded)
  }

  /** A paid payout is never touched again. */
  ghost predicate PayoutGrows(q: Payout, q': Payout) {
    && q'.bookingId == q.bookingId && q'.amount == q.amount && q'.currency == q.currency
    && (q.status == PayoutStatus.Paid ==> q' == q)
  }

  ghost predicate RowsGrow(db: Tables, db': Tables) {
    && (|db.payments| <= |db'.payments| && forall i :: 0 <= i < |db.payments| ==> PaymentGrows(db.payments[i], db'.payments[i]))
    && (|db.refunds| <= |db'.refunds| && forall i :: 0 <= i < |db.refunds| ==> RefundGrows(db.refunds[i], db'.refunds[i]))
    && (|db.payouts| <= |db'.payouts| && forall i :: 0 <= i < |db.payouts| ==> PayoutGrows(db.payouts[i], db'.payouts[i]))
    && |db.events| <= |db'.events|
    && db.ledger <= db'.ledger
    && db.adjustments <= db'.adjustments
  }

  ghost predicate Later(fsm: set<Edge>, db: Tables, now: int, db': Tables, now': int) {
    && now <= now'
    && BookingsGrow(db.bookings, db'.bookings)
    && (forall b :: NoStay(fsm, db, now, b) ==> NoStay(fsm, db', now', b))
    && (forall b :: Finished(fsm, db, b) ==> Finished(fsm, db', b))
    && RowsGrow(db, db')
  }

  /** What a worker relies on survives every later state: no step of another job can break it. */
  lemma WorkerStaysOk(fsm: set<Edge>, db: Tables, now: int, db': Tables, now': int, worker: Worker)
    requires WorkerOk(fsm, db, now, worker) && Later(fsm, db, now, db', now')
    requires BookingsOk(fsm, db.bookings, now) && BookingsOk(fsm, db'.bookings, now')
    ensures WorkerOk(fsm, db', now', worker)
  {
    if worker.ConfirmLost? && SafeFsm(fsm) {
      LeftPendingForGood(fsm, db, now, db', now', worker.booking);
    }
  }

  /** A booking that has left PENDING_PAYMENT never returns to it. */
  lemma LeftPendingForGood(fsm: set<Edge>, db: Tables, now: int, db': Tables, now': int, b: nat)
    requires b < |db.bookings| && BookingsGrow(db.bookings, db'.bookings) && PendingIsEntry(fsm)
    requires BookingsOk(fsm, db.bookings, now) && BookingsOk(fsm, db'.bookings, now')
    ensures db.bookings[b].status != PendingPayment ==> db'.bookings[b].status != PendingPayment
  {
    var h, h' := db.bookings[b].history, db'.bookings[b].history;
    assert RowGrows(db.bookings[b], db'.bookings[b]);
    assert HistoryOk(fsm, db.bookings[b], now) && HistoryOk(fsm, db'.bookings[b], now');
    if db.bookings[b].status != PendingPayment {
      assert |h| > 1;
      PendingNotReentered(fsm, Statuses(h'), |h'| - 1);
    }
  }

  lemma JobStaysOk(fsm: set<Edge>, db: Tables, now: int, db': Tables, now': int, job: Job)
    requires JobOk(fsm, db, now, job) && Later(fsm, db, now, db', now')
    ensures JobOk(fsm, db', now', job)
  {
  }

  lemma LaterReflexive(fsm: set<Edge>, db: Tables, now: int, now': int)
    requires now <= now'
    ensures Later(fsm, db, now, db, now')
  {
  }

  lemma LaterTransitive(fsm: set<Edge>, db: Tables, now: int, db': Tables, now': int, db'': Tables, now'': int)
    requires Later(fsm, db, now, db', now') && Later(fsm, db', now', db'', now'')
    ensures Later(fsm, db, now, db'', now'')
  {
    forall b | 0 <= b < |db.bookings| ensures RowGrows(db.bookings[b], db''.bookings[b]) {
      assert RowGrows(db.bookings[b], db'.bookings[b]) && RowGrows(db'.bookings[b], db''.bookings[b]);
    }
    forall i | 0 <= i < |db.payments| ensures PaymentGrows(db.payments[i], db''.payments[i]) {
      assert PaymentGrows(db.payments[i], db'.payments[i]) && PaymentGrows(db'.payments[i], db''.payments[i]);
    }
    forall i | 0 <= i < |db.refunds| ensures RefundGrows(db.refunds[i], db''.refunds[i]) {
      assert RefundGrows(db.refunds[i], db'.refunds[i]) && RefundGrows(db'.refunds[i], db''.refunds[i]);
    }
    forall i | 0 <= i < |db.payouts| ensures PayoutGrows(db.payouts[i], db''.payouts[i]) {
      assert PayoutGrows(db.payouts[i], db'.payouts[i]) && PayoutGrows(db'.payouts[i], db''.payouts[i]);
    }
  }

  // ---- the tables, write by write ----

  /** Money facts survive anything that only grows the rows they speak about. */
  lemma FundedStays(fsm: set<Edge>, db: Tables, now: int, db': Tables, now': int)
    requires Funded(fsm, db, now) && Later(fsm, db, now, db', now')
    requires forall p :: |db.payments| <= p < |db'.payments| ==> PaidInFull(db', p)
    requires forall r :: |db.refunds| <= r < |db'.refunds| ==> RefundJustified(fsm, db', now', r)
    requires forall q :: |db.payouts| <= q < |db'.payouts| ==> PayoutJustified(fsm, db', q)
    ensures Funded(fsm, db', now')
  {
    forall p | 0 <= p < |db'.payments| ensures PaidInFull(db', p) {
      if p < |db.payments| {
        assert PaidInFull(db, p) && PaymentGrows(db.payments[p], db'.payments[p]);
        assert RowGrows(db.bookings[db.payments[p].bookingId], db'.bookings[db.payments[p].bookingId]);
      }
    }
    forall r | 0 <= r < |db'.refunds| ensures RefundJustified(fsm, db', now', r) {
      if r < |db.refunds| {
        assert RefundJustified(fsm, db, now, r) && RefundGrows(db.refunds[r], db'.refunds[r]);
        assert PaymentGrows(db.payments[db.refunds[r].paymentId], db'.payments[db.refunds[r].paymentId]);
      }
    }
    forall q | 0 <= q < |db'.payouts| ensures PayoutJustified(fsm, db', q) {
      if q < |db.payouts| {
        assert PayoutJustified(fsm, db, q) && PayoutGrows(db.payouts[q], db'.payouts[q]);
        var p: nat :| CapturedFor(db, p, db.payouts[q].bookingId);
        assert PaymentGrows(db.payments[p], db'.payments[p]);
        assert CapturedFor(db', p, db'.payouts[q].bookingId);
      }
    }
  }

  /** A write that leaves the bookings alone keeps everything as long as its own new rows are justified. */
  lemma MoneyWriteKeeps(fsm: set<Edge>, db: Tables, now: int, db': Tables)
    requires DbInv(fsm, db, now) && EscrowOk(db') && db'.bookings == db.bookings && RowsGrow(db, db')
    requires forall p :: |db.payments| <= p < |db'.payments| ==> PaidInFull(db', p)
    requires forall r :: |db.refunds| <= r < |db'.refunds| ==> RefundJustified(fsm, db', now, r)
    requires forall q :: |db.payouts| <= q < |db'.payouts| ==> PayoutJustified(fsm, db', q)
    ensures DbInv(fsm, db', now) && Later(fsm, db, now, db', now)
  {
    FundedStays(fsm, db, now, db', now);
  }

  lemma ClockKeeps(fsm: set<Edge>, db: Tables, now: int, now': int)
    requires DbInv(fsm, db, now) && now <= now'
    ensures DbInv(fsm, db, now') && Later(fsm, db, now, db, now')
  {
    LaterReflexive(fsm, db, now, now');
    ClockKeepsBookings(fsm, db.bookings, now, now');
    FundedStays(fsm, db, now, db, now');
  }

  /** A whitelisted move of one booking by the code keeps everything. */
  lemma BookingMoveKeeps(fsm: set<Edge>, db: Tables, now: int, b: nat, to: Status)
    requires DbInv(fsm, db, now)
    requires b < |db.bookings| && SetStatus(db.bookings, db.blocks, fsm, b, to, now).Wrote?
    requires to in {Confirmed, CheckedIn, Completed, Status.Cancelled, Expired, Status.Refunded}
    requires to == Confirmed ==> db.bookings[b].status == PendingPayment && now < db.bookings[b].holdExpiresAt
    requires to == Expired ==> db.bookings[b].status == PendingPayment && db.bookings[b].holdExpiresAt <= now
    requires SafeFsm(fsm) && to == Status.Refunded ==> db.bookings[b].status != Completed
    ensures
      var db' := db.(bookings := SetStatus(db.bookings, db.blocks, fsm, b, to, now).value);
      DbInv(fsm, db', now) && Later(fsm, db, now, db', now)
  {
    var bookings' := SetStatus(db.bookings, db.blocks, fsm, b, to, now).value;
    var db' := db.(bookings := bookings');
    SetStatusKeeps(db.bookings, db.blocks, fsm, b, to, now);
    MoveIsForward(fsm, db, now, b, bookings');
    assert forall i :: 0 <= i < |bookings'| ==> InsertChecks(bookings'[i]);
    hide Funded, RowsGrow, EscrowOk, BookingsGrow, NoDoubleBooking;
    BookingsReconcile(db, bookings');
    FundedStays(fsm, db, now, db', now);
  }

  /** A safe move never brings a stay back, and never undoes a completion. */
  lemma MoveIsForward(fsm: set<Edge>, db: Tables, now: int, b: nat, bookings': seq<Booking>)
    requires b < |db.bookings| && |bookings'| == |db.bookings| && BookingsGrow(db.bookings, bookings')
    requires forall i :: 0 <= i < |bookings'| && i != b ==> bookings'[i] == db.bookings[i]
    requires
      var from, to := db.bookings[b].status, bookings'[b].status;
      && (from == to || (from, to) in fsm)
      && to in {Confirmed, CheckedIn, Completed, Status.Cancelled, Expired, Status.Refunded}
      && (to == Confirmed ==> from == PendingPayment && now < db.bookings[b].holdExpiresAt)
      && (SafeFsm(fsm) && to == Status.Refunded ==> from != Completed)
    ensures Later(fsm, db, now, db.(bookings := bookings'), now)
  {
    assert RowGrows(db.bookings[b], bookings'[b]);
  }

  lemma PlaceHoldKeeps(fsm: set<Edge>, db: Tables, now: int, row: Booking)
    requires DbInv(fsm, db, now) && InsertHold(db.bookings, db.blocks, row, now).Wrote?
    ensures
      var db' := db.(bookings := InsertHold(db.bookings, db.blocks, row, now).value);
      DbInv(fsm, db', now) && Later(fsm, db, now, db', now)
  {
    var bookings' := InsertHold(db.bookings, db.blocks, row, now).value;
    var db' := db.(bookings := bookings');
    InsertHoldKeeps(db.bookings, db.blocks, fsm, row, now);
    assert forall i :: 0 <= i < |bookings'| ==> InsertChecks(bookings'[i]);
    BookingsReconcile(db, bookings');
    FundedStays(fsm, db, now, db', now);
  }

  lemma InsertPaymentKeeps(fsm: set<Edge>, db: Tables, now: int, b: nat, provider: Provider, key: string)
    requires DbInv(fsm, db, now) && b < |db.bookings|
    requires InsertPayment(db, b, provider, key, db.bookings[b].money.total, db.bookings[b].currency).Wrote?
    ensures
      var db' := InsertPayment(db, b, provider, key, db.bookings[b].money.total, db.bookings[b].currency).value;
      DbInv(fsm, db', now) && Later(fsm, db, now, db', now)
  {
    InsertPaymentReconciles(db, b, provider, key, db.bookings[b].money.total, db.bookings[b].currency);
    MoneyWriteKeeps(fsm, db, now, InsertPayment(db, b, provider, key, db.bookings[b].money.total, db.bookings[b].currency).value);
  }

  lemma AttachIntentKeeps(fsm: set<Edge>, db: Tables, now: int, p: nat, intent: string)
    requires DbInv(fsm, db, now) && AttachIntent(db, p, intent).Wrote?
    ensures
      var db' := AttachIntent(db, p, intent).value;
      DbInv(fsm, db', now) && Later(fsm, db, now, db', now)
  {
    AttachIntentReconciles(db, p, intent);
    assert PaymentOk(db, p);
    MoneyWriteKeeps(fsm, db, now, AttachIntent(db, p, intent).value);
  }

  lemma CaptureKeeps(fsm: set<Edge>, db: Tables, now: int, e: Event)
    requires DbInv(fsm, db, now) && ApplyCapture(db, e).Committed?
    ensures
      var t := ApplyCapture(db, e);
      && DbInv(fsm, t.db, now) && Later(fsm, db, now, t.db, now) && |t.db.events| == |db.events|
      && DecidedFor(t.db, NamedPayment(db, e), t.value)
  {
    CaptureReconciles(db, e);
    var i := PaymentByIntent(db.payments, e.provider, e.intent.value).value;
    assert PaymentOk(db, i);
    MoneyWriteKeeps(fsm, db, now, ApplyCapture(db, e).db);
  }

  lemma FailureKeeps(fsm: set<Edge>, db: Tables, now: int, e: Event)
    requires DbInv(fsm, db, now) && ApplyFailure(db, e).Committed?
    ensures
      var t := ApplyFailure(db, e);
      DbInv(fsm, t.db, now) && Later(fsm, db, now, t.db, now) && |t.db.events| == |db.events|
  {
    FailureReconciles(db, e);
    MoneyWriteKeeps(fsm, db, now, ApplyFailure(db, e).db);
  }

  lemma RefundKeeps(fsm: set<Edge>, db: Tables, now: int, e: Event)
    requires DbInv(fsm, db, now) && ApplyRefund(db, e).Committed?
    ensures
      var t := ApplyRefund(db, e);
      DbInv(fsm, t.db, now) && Later(fsm, db, now, t.db, now) && t.value < |db.bookings| && |t.db.events| == |db.events|
  {
    RefundReconciles(db, e);
    var i := PaymentByIntent(db.payments, e.provider, e.intent.value).value;
    assert PaymentOk(db, i);
    var r := PendingRefund(db.refunds, i, e.refundRef.value);
    if r.Some? {
      assert RefundOk(db, r.value);
    }
    MoneyWriteKeeps(fsm, db, now, ApplyRefund(db, e).db);
  }

  lemma InsertRefundKeeps(fsm: set<Edge>, db: Tables, now: int, p: nat, amount: int)
    requires DbInv(fsm, db, now) && p < |db.payments| && InsertRefund(db, p, amount, db.payments[p].currency).Wrote?
    requires IsCaptured(db.payments[p].status) && NoStay(fsm, db, now, db.payments[p].bookingId)
    ensures
      var db' := InsertRefund(db, p, amount, db.payments[p].currency).value;
      DbInv(fsm, db', now) && Later(fsm, db, now, db', now)
  {
    InsertRefundReconciles(db, p, amount, db.payments[p].currency);
    MoneyWriteKeeps(fsm, db, now, InsertRefund(db, p, amount, db.payments[p].currency).value);
  }

  lemma AttachRefundKeeps(fsm: set<Edge>, db: Tables, now: int, r: nat, ref: string)
    requires DbInv(fsm, db, now) && AttachRefundRef(db, r, ref).Wrote?
    ensures
      var db' := AttachRefundRef(db, r, ref).value;
      DbInv(fsm, db', now) && Later(fsm, db, now, db', now)
  {
    AttachRefundReconciles(db, r, ref);
    MoneyWriteKeeps(fsm, db, now, AttachRefundRef(db, r, ref).value);
  }

  lemma SplitKeeps(fsm: set<Edge>, db: Tables, now: int, b: nat, p: nat)
    requires DbInv(fsm, db, now) && Finished(fsm, db, b) && CapturedFor(db, p, b)
    requires SplitEscrow(db, b, p).Committed?
    ensures
      var t := SplitEscrow(db, b, p);
      && DbInv(fsm, t.db, now) && Later(fsm, db, now, t.db, now)
      && (t.value.Some? ==> t.value.value < |t.db.payouts|)
      && (t.value.None? ==> t.db == db)
  {
    SplitReconciles(db, b, p);
    var db' := SplitEscrow(db, b, p).db;
    forall q | |db.payouts| <= q < |db'.payouts| ensures PayoutJustified(fsm, db', q) {
      assert CapturedFor(db', p, b);
    }
    MoneyWriteKeeps(fsm, db, now, db');
  }

  lemma MovePayoutKeeps(fsm: set<Edge>, db: Tables, now: int, q: nat, p: Payout)
    requires DbInv(fsm, db, now) && q < |db.payouts|
    requires p == db.payouts[q].(status := p.status, provider := p.provider, transfer := p.transfer)
    requires db.payouts[q].status != PayoutStatus.Paid && p.status != PayoutStatus.Paid
    ensures
      var db' := db.(payouts := db.payouts[q := p]);
      DbInv(fsm, db', now) && Later(fsm, db, now, db', now)
  {
    MovePayoutReconciles(db, q, p);
    MoneyWriteKeeps(fsm, db, now, db.(payouts := db.payouts[q := p]));
  }

  lemma SettleKeeps(fsm: set<Edge>, db: Tables, now: int, q: nat)
    requires DbInv(fsm, db, now) && SettlePayout(db, q).Committed?
    ensures
      var t := SettlePayout(db, q);
      DbInv(fsm, t.db, now) && Later(fsm, db, now, t.db, now)
  {
    SettleReconciles(db, q);
    MoneyWriteKeeps(fsm, db, now, SettlePayout(db, q).db);
  }

  lemma AdjustKeeps(fsm: set<Edge>, db: Tables, now: int, a: Adjustment)
    requires DbInv(fsm, db, now) && Adjust(db, a).Committed?
    ensures
      var t := Adjust(db, a);
      DbInv(fsm, t.db, now) && Later(fsm, db, now, t.db, now)
  {
    AdjustReconciles(db, a);
    MoneyWriteKeeps(fsm, db, now, Adjust(db, a).db);
  }

  lemma RecordEventKeeps(fsm: set<Edge>, db: Tables, now: int, e: Event, signatureValid: bool)
    requires DbInv(fsm, db, now) && RecordEvent(db, e, signatureValid).Wrote?
    ensures
      var db' := RecordEvent(db, e, signatureValid).value;
      DbInv(fsm, db', now) && Later(fsm, db, now, db', now)
  {
    var db' := RecordEvent(db, e, signatureValid).value;
    EventsReconcile(db, db'.events);
    MoneyWriteKeeps(fsm, db, now, db');
  }

  lemma EventRowKeeps(fsm: set<Edge>, db: Tables, now: int, id: nat, e: Event)
    requires DbInv(fsm, db, now) && id < |db.events|
    requires e == db.events[id].(status := e.status, attempts := e.attempts)
    ensures
      var db' := db.(events := db.events[id := e]);
      DbInv(fsm, db', now) && Later(fsm, db, now, db', now)
  {
    EventsReconcile(db, db.events[id := e]);
    MoneyWriteKeeps(fsm, db, now, db.(events := db.events[id := e]));
  }

  lemma BlocksKeep(fsm: set<Edge>, db: Tables, now: int, blocks: seq<Block>)
    requires DbInv(fsm, db, now)
    ensures
      var db' := db.(blocks := blocks);
      DbInv(fsm, db', now) && Later(fsm, db, now, db', now)
  {
    var db' := db.(blocks := blocks);
    forall probe ensures Measure(db'.ledger, probe) == Closed(db', probe) {
      assert Measure(db.ledger, probe) == Closed(db, probe);
    }
    SameRowsOk(db, db');
    MoneyWriteKeeps(fsm, db, now, db');
  }

  // ---- every step ----

  /** What a step from s to s' must achieve. */
  ghost predicate Good(fsm: set<Edge>, s: State, s': State) {
    Inv(fsm, s') && Later(fsm, s.db, s.now, s'.db, s'.now)
  }

  /** A step that writes the tables within the invariant, adds at most one job and moves at most one worker. */
  lemma Settled(fsm: set<Edge>, s: State, s': State, w: nat)
    requires Inv(fsm, s)
    requires DbInv(fsm, s'.db, s'.now) && Later(fsm, s.db, s.now, s'.db, s'.now)
    requires forall v :: v in s'.workers && v != w ==> v in s.workers && s'.workers[v] == s.workers[v]
    requires w in s'.workers ==> WorkerOk(fsm, s'.db, s'.now, s'.workers[w])
    requires forall job :: job in s'.jobs && job !in s.jobs ==> JobOk(fsm, s'.db, s'.now, job)
    ensures Good(fsm, s, s')
  {
    forall v | v in s'.workers ensures WorkerOk(fsm, s'.db, s'.now, s'.workers[v]) {
      if v != w {
        WorkerStaysOk(fsm, s.db, s.now, s'.db, s'.now, s.workers[v]);
      }
    }
    forall job | job in s'.jobs ensures JobOk(fsm, s'.db, s'.now, job) {
      if job in s.jobs {
        JobStaysOk(fsm, s.db, s.now, s'.db, s'.now, job);
      }
    }
  }

  /** A step that belongs to no worker. */
  lemma SettledAlone(fsm: set<Edge>, s: State, s': State)
    requires Inv(fsm, s)
    requires DbInv(fsm, s'.db, s'.now) && Later(fsm, s.db, s.now, s'.db, s'.now)
    requires s'.workers == s.workers
    requires forall job :: job in s'.jobs && job !in s.jobs ==> JobOk(fsm, s'.db, s'.now, job)
    ensures Good(fsm, s, s')
  {
    hide DbInv, Later, JobOk;
    if 0 in s.workers {
      WorkerStaysOk(fsm, s.db, s.now, s'.db, s'.now, s.workers[0]) by { UnfoldDbInv(fsm, s.db, s.now); UnfoldDbInv(fsm, s'.db, s'.now); }
    }
    Settled(fsm, s, s', 0);
  }

  lemma UnfoldDbInv(fsm: set<Edge>, db: Tables, now: int)
    requires DbInv(fsm, db, now)
    ensures EscrowOk(db) && BookingsOk(fsm, db.bookings, now) && NoDoubleBooking(db.bookings) && Funded(fsm, db, now)
  {
  }

  /** A step of one worker that only reads: it moves its program counter, and may add a job. */
  lemma Quiet(fsm: set<Edge>, s: State, s': State, w: nat)
    requires Inv(fsm, s) && s'.db == s.db && s'.now == s.now
    requires forall v :: v in s'.workers && v != w ==> v in s.workers && s'.workers[v] == s.workers[v]
    requires w in s'.workers ==> WorkerOk(fsm, s.db, s.now, s'.workers[w])
    requires forall job :: job in s'.jobs && job !in s.jobs ==> JobOk(fsm, s.db, s.now, job)
    ensures Good(fsm, s, s')
  {
    LaterReflexive(fsm, s.db, s.now, s.now);
    Settled(fsm, s, s', w);
  }

  lemma EnvironmentStep(fsm: set<Edge>, s: State, step: Step)
    requires Inv(fsm, s) && (step.Tick? || step.Crash? || step.SetBlocks?)
    ensures Good(fsm, s, NextEnvironment(s, step).value)
  {
    hide SafeFsm, DbInv, Later, Good;
    var s' := NextEnvironment(s, step).value;
    match step {
      case Tick(elapsed) =>
        ClockKeeps(fsm, s.db, s.now, s.now + elapsed);
        SettledAlone(fsm, s, s');
      case Crash(w) =>
        Quiet(fsm, s, s', w);
      case SetBlocks(blocks) =>
        BlocksKeep(fsm, s.db, s.now, blocks);
        SettledAlone(fsm, s, s');
    }
  }

  // ---- bookings ----

  lemma CancelSwapStep(fsm: set<Edge>, s: State, w: nat)
    requires Inv(fsm, s) && NextBooking(fsm, s, CancelSwap(w)).Some?
    ensures Good(fsm, s, NextBooking(fsm, s, CancelSwap(w)).value)
  {
    hide SafeFsm, DbInv, Later, Good;
    var s' := NextBooking(fsm, s, CancelSwap(w)).value;
    var b, from := s.workers[w].booking, s.workers[w].from;
    assert WorkerOk(fsm, s.db, s.now, s.workers[w]);
    if Transition(s.db.bookings, s.db.blocks, fsm, b, from, Status.Cancelled, s.now).Wrote? {
      BookingMoveKeeps(fsm, s.db, s.now, b, Status.Cancelled);
      assert NoStay(fsm, s'.db, s'.now, b);
      Settled(fsm, s, s', w);
    } else {
      Quiet(fsm, s, s', w);
    }
  }

  lemma MoveSwapStep(fsm: set<Edge>, s: State, w: nat)
    requires Inv(fsm, s) && NextBooking(fsm, s, MoveSwap(w)).Some?
    ensures Good(fsm, s, NextBooking(fsm, s, MoveSwap(w)).value)
  {
    hide SafeFsm, DbInv, Later, Good;
    var s' := NextBooking(fsm, s, MoveSwap(w)).value;
    var b, from, to := s.workers[w].booking, s.workers[w].from, s.workers[w].to;
    assert WorkerOk(fsm, s.db, s.now, s.workers[w]);
    if Transition(s.db.bookings, s.db.blocks, fsm, b, from, to, s.now).Wrote? {
      BookingMoveKeeps(fsm, s.db, s.now, b, to);
      assert to == Completed ==> Finished(fsm, s'.db, b);
      Settled(fsm, s, s', w);
    } else {
      Quiet(fsm, s, s', w);
    }
  }

  lemma BookingStep(fsm: set<Edge>, s: State, step: Step)
    requires Inv(fsm, s) && IsBookingStep(step) && NextBooking(fsm, s, step).Some?
    ensures Good(fsm, s, NextBooking(fsm, s, step).value)
  {
    hide SafeFsm, DbInv, Later, Good;
    var s' := NextBooking(fsm, s, step).value;
    match step {
      case PlaceHold(row) =>
        PlaceHoldKeeps(fsm, s.db, s.now, row);
        SettledAlone(fsm, s, s');
      case Expire(b) =>
        BookingMoveKeeps(fsm, s.db, s.now, b, Expired);
        SettledAlone(fsm, s, s');
      case ConfirmDirectly(b) =>
        BookingMoveKeeps(fsm, s.db, s.now, b, Confirmed);
        SettledAlone(fsm, s, s');
      case CancelSwap(w) => CancelSwapStep(fsm, s, w);
      case MoveSwap(w) => MoveSwapStep(fsm, s, w);
      case _ => BookingReadStep(fsm, s, step);
    }
  }

  lemma BookingReadStep(fsm: set<Edge>, s: State, step: Step)
    requires Inv(fsm, s) && (step.StartCancel? || step.StartMove? || step.CancelEnqueue? || step.CompleteEnqueue?)
    requires NextBooking(fsm, s, step).Some?
    ensures Good(fsm, s, NextBooking(fsm, s, step).value)
  {
    hide SafeFsm, DbInv, Later, Good, Transition, InsertHold, ConfirmHold, ExpireIfLapsed;
    if step.w in s.workers {
      assert WorkerOk(fsm, s.db, s.now, s.workers[step.w]);
    }
    Quiet(fsm, s, NextBooking(fsm, s, step).value, step.w);
  }

  // ---- initiation and the inbox ----

  lemma IntakeStep(fsm: set<Edge>, s: State, w: nat, e: Event, signatureValid: bool)
    requires Inv(fsm, s) && NextInbox(s, Intake(w, e, signatureValid)).Some?
    ensures Good(fsm, s, NextInbox(s, Intake(w, e, signatureValid)).value)
  {
    hide SafeFsm, DbInv, Later, Good;
    var s' := NextInbox(s, Intake(w, e, signatureValid)).value;
    RecordEventKeeps(fsm, s.db, s.now, e, signatureValid);
    Settled(fsm, s, s', w);
  }

  lemma MarkStep(fsm: set<Edge>, s: State, w: nat, id: nat, e: Event, s': State)
    requires Inv(fsm, s) && id < |s.db.events|
    requires e == s.db.events[id].(status := e.status, attempts := e.attempts)
    requires s' == s.(db := s.db.(events := s.db.events[id := e]), workers := s'.workers)
    requires s'.workers == s.workers - {w} || s'.workers == s.workers[w := Claimed(id)]
    ensures Good(fsm, s, s')
  {
    hide SafeFsm, DbInv, Later, Good;
    EventRowKeeps(fsm, s.db, s.now, id, e);
    Settled(fsm, s, s', w);
  }

  lemma InitiationStep(fsm: set<Edge>, s: State, step: Step)
    requires Inv(fsm, s) && (step.Initiate? || step.Attach?) && NextInbox(s, step).Some?
    ensures Good(fsm, s, NextInbox(s, step).value)
  {
    hide SafeFsm, DbInv, Later, Good;
    if step.Initiate? {
      InsertPaymentKeeps(fsm, s.db, s.now, step.b, step.provider, step.key);
    } else {
      AttachIntentKeeps(fsm, s.db, s.now, step.p, step.intent);
    }
    SettledAlone(fsm, s, NextInbox(s, step).value);
  }

  lemma InboxStep(fsm: set<Edge>, s: State, step: Step)
    requires Inv(fsm, s) && IsInboxStep(step) && NextInbox(s, step).Some?
    ensures Good(fsm, s, NextInbox(s, step).value)
  {
    hide SafeFsm, DbInv, Later, Good, Inv, InsertPayment, AttachIntent, RecordEvent;
    var s' := NextInbox(s, step).value;
    match step {
      case Initiate(_, _, _) => InitiationStep(fsm, s, step);
      case Attach(_, _) => InitiationStep(fsm, s, step);
      case Intake(w, e, signatureValid) => IntakeStep(fsm, s, w, e, signatureValid);
      case Claim(w, id) => MarkStep(fsm, s, w, id, s'.db.events[id], s');
      case Finish(w) => MarkStep(fsm, s, w, s.workers[w].event, s'.db.events[s.workers[w].event], s');
      case Skip(w) => MarkStep(fsm, s, w, s.workers[w].event, s'.db.events[s.workers[w].event], s');
      case Fail(w) => MarkStep(fsm, s, w, s.workers[w].event, s'.db.events[s.workers[w].event], s');
      case _ => InboxReadStep(fsm, s, step);
    }
  }

  lemma InboxReadStep(fsm: set<Edge>, s: State, step: Step)
    requires Inv(fsm, s) && (step.IntakeEnqueue? || step.PassOver? || step.Throw?)
    requires NextInbox(s, step).Some?
    ensures Good(fsm, s, NextInbox(s, step).value)
  {
    hide SafeFsm, DbInv, Later, Good, InsertPayment, AttachIntent, RecordEvent, ClaimEvent, MarkEvent;
    assert WorkerOk(fsm, s.db, s.now, s.workers[step.w]);
    Quiet(fsm, s, NextInbox(s, step).value, step.w);
  }

  // ---- webhooks ----

  lemma CaptureStep(fsm: set<Edge>, s: State, w: nat)
    requires Inv(fsm, s) && NextWebhook(fsm, s, CaptureTx(w)).Some?
    ensures Good(fsm, s, NextWebhook(fsm, s, CaptureTx(w)).value)
  {
    hide SafeFsm, DbInv, Later, Good;
    var s' := NextWebhook(fsm, s, CaptureTx(w)).value;
    var e := s.db.events[s.workers[w].event];
    if ApplyCapture(s.db, e).Committed? {
      CaptureKeeps(fsm, s.db, s.now, e);
      KeepsBookingCount(fsm, s.db, s.now, s'.db, s'.now);
      Settled(fsm, s, s', w);
    } else {
      Quiet(fsm, s, s', w);
    }
  }

  lemma KeepsBookingCount(fsm: set<Edge>, db: Tables, now: int, db': Tables, now': int)
    requires Later(fsm, db, now, db', now')
    ensures |db.bookings| <= |db'.bookings| && |db.events| <= |db'.events|
  {
  }

  lemma FailureStep(fsm: set<Edge>, s: State, w: nat)
    requires Inv(fsm, s) && NextWebhook(fsm, s, FailureTx(w)).Some?
    ensures Good(fsm, s, NextWebhook(fsm, s, FailureTx(w)).value)
  {
    hide SafeFsm, DbInv, Later, Good;
    var s' := NextWebhook(fsm, s, FailureTx(w)).value;
    var e := s.db.events[s.workers[w].event];
    if ApplyFailure(s.db, e).Committed? {
      FailureKeeps(fsm, s.db, s.now, e);
      Settled(fsm, s, s', w);
    } else {
      Quiet(fsm, s, s', w);
    }
  }

  lemma RefundTxStep(fsm: set<Edge>, s: State, w: nat)
    requires Inv(fsm, s) && NextWebhook(fsm, s, RefundTx(w)).Some?
    ensures Good(fsm, s, NextWebhook(fsm, s, RefundTx(w)).value)
  {
    hide SafeFsm, DbInv, Later, Good;
    var s' := NextWebhook(fsm, s, RefundTx(w)).value;
    var e := s.db.events[s.workers[w].event];
    if ApplyRefund(s.db, e).Committed? {
      RefundKeeps(fsm, s.db, s.now, e);
      KeepsBookingCount(fsm, s.db, s.now, s'.db, s'.now);
      Settled(fsm, s, s', w);
    } else {
      Quiet(fsm, s, s', w);
    }
  }

  lemma ConfirmSwapStep(fsm: set<Edge>, s: State, w: nat)
    requires Inv(fsm, s) && NextWebhook(fsm, s, ConfirmSwap(w)).Some?
    ensures Good(fsm, s, NextWebhook(fsm, s, ConfirmSwap(w)).value)
  {
    hide SafeFsm, DbInv, Later, Good;
    var s' := NextWebhook(fsm, s, ConfirmSwap(w)).value;
    var b := s.workers[w].booking;
    assert WorkerOk(fsm, s.db, s.now, s.workers[w]);
    if ConfirmHold(s.db.bookings, s.db.blocks, fsm, b, s.now).Wrote? {
      BookingMoveKeeps(fsm, s.db, s.now, b, Confirmed);
      Settled(fsm, s, s', w);
    } else {
      Quiet(fsm, s, s', w);
    }
  }

  lemma RefundedSwapStep(fsm: set<Edge>, s: State, w: nat)
    requires Inv(fsm, s) && NextWebhook(fsm, s, RefundedSwap(w)).Some?
    ensures Good(fsm, s, NextWebhook(fsm, s, RefundedSwap(w)).value)
  {
    hide SafeFsm, DbInv, Later, Good;
    var s' := NextWebhook(fsm, s, RefundedSwap(w)).value;
    var b, from := s.workers[w].booking, s.workers[w].from;
    assert WorkerOk(fsm, s.db, s.now, s.workers[w]);
    if Transition(s.db.bookings, s.db.blocks, fsm, b, from, Status.Refunded, s.now).Wrote? {
      BookingMoveKeeps(fsm, s.db, s.now, b, Status.Refunded);
      Settled(fsm, s, s', w);
    } else {
      Quiet(fsm, s, s', w);
    }
  }

  lemma WebhookStep(fsm: set<Edge>, s: State, step: Step)
    requires Inv(fsm, s) && IsWebhookStep(step) && NextWebhook(fsm, s, step).Some?
    ensures Good(fsm, s, NextWebhook(fsm, s, step).value)
  {
    hide SafeFsm, DbInv, Later, Good;
    var s' := NextWebhook(fsm, s, step).value;
    var w := step.w;
    match step {
      case CaptureTx(_) => CaptureStep(fsm, s, w);
      case FailureTx(_) => FailureStep(fsm, s, w);
      case RefundTx(_) => RefundTxStep(fsm, s, w);
      case ConfirmSwap(_) => ConfirmSwapStep(fsm, s, w);
      case RefundedSwap(_) => RefundedSwapStep(fsm, s, w);
      case _ => WebhookReadStep(fsm, s, step);
    }
  }

  /** Reading the booking again, asserting the transition in process, classifying a lost swap, enqueueing. */
  lemma WebhookReadStep(fsm: set<Edge>, s: State, step: Step)
    requires Inv(fsm, s)
    requires
      || step.ReadAfterCapture? || step.AssertConfirm? || step.ClassifyLost? || step.EnqueueRefund?
      || step.ReadAfterRefund? || step.AssertRefunded?
    requires NextWebhook(fsm, s, step).Some?
    ensures Good(fsm, s, NextWebhook(fsm, s, step).value)
  {
    hide SafeFsm, DbInv, Later, Good, Transition, ConfirmHold, ApplyCapture, ApplyFailure, ApplyRefund;
    var w := step.w;
    assert WorkerOk(fsm, s.db, s.now, s.workers[w]);
    var s' := NextWebhook(fsm, s, step).value;
    assert WorkerOk(fsm, s.db, s.now, s'.workers[w]);
    Quiet(fsm, s, s', w);
  }

  // ---- payouts ----

  lemma SplitStep(fsm: set<Edge>, s: State, w: nat)
    requires Inv(fsm, s) && NextPayout(s, Split(w)).Some?
    ensures Good(fsm, s, NextPayout(s, Split(w)).value)
  {
    hide SafeFsm, DbInv, Later, Good;
    var s' := NextPayout(s, Split(w)).value;
    var b, p := s.workers[w].booking, s.workers[w].payment;
    assert WorkerOk(fsm, s.db, s.now, s.workers[w]);
    if SplitEscrow(s.db, b, p).Committed? && SplitEscrow(s.db, b, p).value.Some? {
      SplitKeeps(fsm, s.db, s.now, b, p);
      Settled(fsm, s, s', w);
    } else {
      Quiet(fsm, s, s', w);
    }
  }

  lemma InTransitStep(fsm: set<Edge>, s: State, w: nat)
    requires Inv(fsm, s) && NextPayout(s, InTransitSwap(w)).Some?
    ensures Good(fsm, s, NextPayout(s, InTransitSwap(w)).value)
  {
    hide SafeFsm, DbInv, Later, Good;
    var s' := NextPayout(s, InTransitSwap(w)).value;
    var worker := s.workers[w];
    if MarkInTransit(s.db, worker.payout, worker.provider, worker.transfer).Wrote? {
      MovePayoutKeeps(fsm, s.db, s.now, worker.payout, s'.db.payouts[worker.payout]);
      Settled(fsm, s, s', w);
    } else {
      Quiet(fsm, s, s', w);
    }
  }

  lemma SettleMockStep(fsm: set<Edge>, s: State, w: nat)
    requires Inv(fsm, s) && NextPayout(s, SettleMock(w)).Some?
    ensures Good(fsm, s, NextPayout(s, SettleMock(w)).value)
  {
    hide SafeFsm, DbInv, Later, Good;
    var s' := NextPayout(s, SettleMock(w)).value;
    var q := s.workers[w].payout;
    assert WorkerOk(fsm, s.db, s.now, s.workers[w]);
    if SettlePayout(s.db, q).Committed? {
      SettleKeeps(fsm, s.db, s.now, q);
      Settled(fsm, s, s', w);
    } else {
      Quiet(fsm, s, s', w);
    }
  }

  lemma FailPayoutStep(fsm: set<Edge>, s: State, w: nat)
    requires Inv(fsm, s) && NextPayout(s, FailPayout(w)).Some?
    ensures Good(fsm, s, NextPayout(s, FailPayout(w)).value)
  {
    hide SafeFsm, DbInv, Later, Good;
    var s' := NextPayout(s, FailPayout(w)).value;
    var q := s.workers[w].payout;
    if MarkPayoutFailed(s.db, q).Wrote? {
      MovePayoutKeeps(fsm, s.db, s.now, q, s'.db.payouts[q]);
      Settled(fsm, s, s', w);
    } else {
      Quiet(fsm, s, s', w);
    }
  }

  lemma AdminMoveStep(fsm: set<Edge>, s: State, step: Step)
    requires Inv(fsm, s) && (step.AdminHold? || step.AdminRelease? || step.AdminRetry?)
    requires NextPayout(s, step).Some?
    ensures Good(fsm, s, NextPayout(s, step).value)
  {
    hide SafeFsm, DbInv, Later, Good;
    var s' := NextPayout(s, step).value;
    MovePayoutKeeps(fsm, s.db, s.now, step.q, s'.db.payouts[step.q]);
    SettledAlone(fsm, s, s');
  }

  lemma PayoutStep(fsm: set<Edge>, s: State, step: Step)
    requires Inv(fsm, s) && IsPayoutStep(step) && NextPayout(s, step).Some?
    ensures Good(fsm, s, NextPayout(s, step).value)
  {
    hide SafeFsm, DbInv, Later, Good;
    var s' := NextPayout(s, step).value;
    match step {
      case SettleByProvider(q) =>
        SettleKeeps(fsm, s.db, s.now, q);
        SettledAlone(fsm, s, s');
      case AdminAdjust(a) =>
        AdjustKeeps(fsm, s.db, s.now, a);
        SettledAlone(fsm, s, s');
      case AdminHold(_) => AdminMoveStep(fsm, s, step);
      case AdminRelease(_, _) => AdminMoveStep(fsm, s, step);
      case AdminRetry(_, _) => AdminMoveStep(fsm, s, step);
      case Split(w) => SplitStep(fsm, s, w);
      case InTransitSwap(w) => InTransitStep(fsm, s, w);
      case SettleMock(w) => SettleMockStep(fsm, s, w);
      case FailPayout(w) => FailPayoutStep(fsm, s, w);
      case StartPayout(_, _) => CreatePayoutReadStep(fsm, s, step);
      case FindFunds(_) => CreatePayoutReadStep(fsm, s, step);
      case EnqueueExecute(_) => CreatePayoutReadStep(fsm, s, step);
      case ExecuteThrows(_) => TransferThrowsStep(fsm, s, step);
      case TransferResponseLost(_, _) => TransferThrowsStep(fsm, s, step);
      case _ => ExecutePayoutReadStep(fsm, s, step);
    }
  }

  lemma CreatePayoutReadStep(fsm: set<Edge>, s: State, step: Step)
    requires Inv(fsm, s) && (step.StartPayout? || step.FindFunds? || step.EnqueueExecute?)
    requires NextPayout(s, step).Some?
    ensures Good(fsm, s, NextPayout(s, step).value)
  {
    hide SafeFsm, DbInv, Later, Good, SplitEscrow, MarkInTransit, SettlePayout, MarkPayoutFailed;
    hide Adjust, HoldPayout, ReleasePayout, RetryPayout;
    var w := step.w;
    if w in s.workers {
      assert WorkerOk(fsm, s.db, s.now, s.workers[w]);
    }
    Quiet(fsm, s, NextPayout(s, step).value, w);
  }

  lemma ExecutePayoutReadStep(fsm: set<Edge>, s: State, step: Step)
    requires Inv(fsm, s)
    requires step.StartExecute? || step.Transfer? || step.LeaveToProvider?
    requires NextPayout(s, step).Some?
    ensures Good(fsm, s, NextPayout(s, step).value)
  {
    hide SafeFsm, DbInv, Later, Good, SplitEscrow, MarkInTransit, SettlePayout, MarkPayoutFailed;
    hide Adjust, HoldPayout, ReleasePayout, RetryPayout;
    var w := step.w;
    if w in s.workers {
      assert WorkerOk(fsm, s.db, s.now, s.workers[w]);
    }
    Quiet(fsm, s, NextPayout(s, step).value, w);
  }

  lemma TransferThrowsStep(fsm: set<Edge>, s: State, step: Step)
    requires Inv(fsm, s) && (step.ExecuteThrows? || step.TransferResponseLost?) && NextPayout(s, step).Some?
    ensures Good(fsm, s, NextPayout(s, step).value)
  {
    hide SafeFsm, DbInv, Later, Good;
    assert WorkerOk(fsm, s.db, s.now, s.workers[step.w]);
    Quiet(fsm, s, NextPayout(s, step).value, step.w);
  }

  // ---- refunds ----

  lemma InsertRefundStep(fsm: set<Edge>, s: State, w: nat)
    requires Inv(fsm, s) && NextRefund(s, InsertRefundRow(w)).Some?
    ensures Good(fsm, s, NextRefund(s, InsertRefundRow(w)).value)
  {
    hide SafeFsm, DbInv, Later, Good;
    var s' := NextRefund(s, InsertRefundRow(w)).value;
    var p, remaining := s.workers[w].payment, s.workers[w].remaining;
    assert WorkerOk(fsm, s.db, s.now, s.workers[w]);
    if InsertRefund(s.db, p, remaining, s.db.payments[p].currency).Wrote? {
      InsertRefundKeeps(fsm, s.db, s.now, p, remaining);
      Settled(fsm, s, s', w);
    } else {
      Quiet(fsm, s, s', w);
    }
  }

  lemma AttachRefundStep(fsm: set<Edge>, s: State, w: nat)
    requires Inv(fsm, s) && NextRefund(s, AttachRefund(w)).Some?
    ensures Good(fsm, s, NextRefund(s, AttachRefund(w)).value)
  {
    hide SafeFsm, DbInv, Later, Good;
    var s' := NextRefund(s, AttachRefund(w)).value;
    var r, ref := s.workers[w].refund, s.workers[w].ref;
    if AttachRefundRef(s.db, r, ref).Wrote? {
      AttachRefundKeeps(fsm, s.db, s.now, r, ref);
      Settled(fsm, s, s', w);
    } else {
      Quiet(fsm, s, s', w);
    }
  }

  lemma StartRefundStep(fsm: set<Edge>, s: State, w: nat, b: nat)
    requires Inv(fsm, s) && NextRefund(s, StartRefund(w, b)).Some?
    ensures Good(fsm, s, NextRefund(s, StartRefund(w, b)).value)
  {
    var p := CapturedForBooking(s.db.payments, b).value;
    assert PaymentOk(s.db, p);
    assert JobOk(fsm, s.db, s.now, CreateRefund(b));
    hide SafeFsm, DbInv, Later, Good;
    Quiet(fsm, s, NextRefund(s, StartRefund(w, b)).value, w);
  }

  lemma RefundStep(fsm: set<Edge>, s: State, step: Step)
    requires Inv(fsm, s) && IsRefundStep(step) && NextRefund(s, step).Some?
    ensures Good(fsm, s, NextRefund(s, step).value)
  {
    hide SafeFsm, DbInv, Later, Good, Inv;
    match step {
      case StartRefund(w, b) => StartRefundStep(fsm, s, w, b);
      case InsertRefundRow(w) => InsertRefundStep(fsm, s, w);
      case AttachRefund(w) => AttachRefundStep(fsm, s, w);
      case _ => RefundReadStep(fsm, s, step);
    }
  }

  lemma RefundReadStep(fsm: set<Edge>, s: State, step: Step)
    requires Inv(fsm, s) && (step.CheckRefund? || step.AcceptRefund?)
    requires NextRefund(s, step).Some?
    ensures Good(fsm, s, NextRefund(s, step).value)
  {
    hide SafeFsm, DbInv, Later, Good, InsertRefund, AttachRefundRef, CapturedForBooking;
    assert WorkerOk(fsm, s.db, s.now, s.workers[step.w]);
    Quiet(fsm, s, NextRefund(s, step).value, step.w);
  }

  /** Every step of the machine keeps the invariant and moves the tables only forward. */
  lemma EveryStep(fsm: set<Edge>, s: State, step: Step)
    requires Inv(fsm, s) && Next(fsm, s, step).Some?
    ensures Good(fsm, s, Next(fsm, s, step).value)
  {
    hide Good, Inv;
    if IsBookingStep(step) {
      BookingStep(fsm, s, step);
    } else if IsInboxStep(step) {
      InboxStep(fsm, s, step);
    } else if IsWebhookStep(step) {
      WebhookStep(fsm, s, step);
    } else if IsPayoutStep(step) {
      PayoutStep(fsm, s, step);
    } else if IsRefundStep(step) {
      RefundStep(fsm, s, step);
    } else {
      EnvironmentStep(fsm, s, step);
    }
  }
}
