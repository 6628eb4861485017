/**
 * The payment tables and the statements and transactions of the payment module, as
 * functions from the tables before to the tables after. A row's id is its position;
 * rows are never deleted.
 */
module EscrowTables {
  import opened Common
  import opened Pricing
  import opened Bookings
  import opened Ledger

  datatype Provider = Stripe | HyperPay | Moyasar | Tap | Mock

  datatype PaymentStatus =
    | Initiated | RequiresAction | Authorized | Captured | Failed | Voided | PartiallyRefunded | Refunded

  datatype RefundStatus = Pending | Succeeded | Failed | Cancelled

  datatype PayoutStatus = Pending | OnHold | Scheduled | InTransit | Paid | Failed | Reversed

  datatype WebhookStatus = Received | Processing | Processed | Failed | Skipped

  datatype Payment = Payment(
    bookingId: nat, provider: Provider, key: string, intent: Option<string>,
    status: PaymentStatus, amount: int, currency: string, refunded: int)

  datatype Refund = Refund(paymentId: nat, providerRef: Option<string>, status: RefundStatus, amount: int, currency: string)

  datatype Payout = Payout(
    bookingId: nat, status: PayoutStatus, amount: int, currency: string,
    provider: Provider, transfer: Option<string>)

  datatype EventKind = PaymentCaptured | PaymentFailed | RefundSucceeded | RefundFailed | Ignored

  datatype Event = Event(
    provider: Provider, eventId: string, status: WebhookStatus, attempts: nat,
    kind: EventKind, intent: Option<string>, refundRef: Option<string>, amount: Option<int>)

  datatype Adjustment = Adjustment(from: Account, to: Account, amount: int, currency: string, bookingId: Option<nat>)

  /** `adjustments` is not a table of the system: it records the committed manual adjustments. */
  datatype Tables = Tables(
    bookings: seq<Booking>, blocks: seq<Block>,
    payments: seq<Payment>, refunds: seq<Refund>, payouts: seq<Payout>,
    events: seq<Event>, ledger: seq<Entry>, adjustments: seq<Adjustment>)

  const EMPTY := Tables([], [], [], [], [], [], [], [])

  /** The outcome of a multi-statement transaction. */
  datatype Tx<+T> = Committed(db: Tables, value: T) | RolledBack

  // ---- payments ----

  predicate Capturable(s: PaymentStatus) {
    s in {PaymentStatus.Initiated, PaymentStatus.RequiresAction, PaymentStatus.Authorized}
  }

  /** Money that has entered escrow, whether or not some of it went back. */
  predicate IsCaptured(s: PaymentStatus) {
    s in {PaymentStatus.Captured, PaymentStatus.PartiallyRefunded, PaymentStatus.Refunded}
  }

  /** Statuses that a payment never leaves. */
  predicate Dead(s: PaymentStatus) {
    s in {PaymentStatus.Failed, PaymentStatus.Voided}
  }

  predicate Refundable(s: PaymentStatus) {
    s in {PaymentStatus.Captured, PaymentStatus.PartiallyRefunded}
  }

  function PaymentByKey(payments: seq<Payment>, key: string): (r: Option<nat>)
    ensures r.Some? ==> r.value < |payments| && payments[r.value].key == key
    ensures r.None? ==> forall i :: 0 <= i < |payments| ==> payments[i].key != key
  {
    if |payments| == 0 then None
    else if payments[|payments| - 1].key == key then Some(|payments| - 1)
    else PaymentByKey(payments[..|payments| - 1], key)
  }

  function PaymentByIntent(payments: seq<Payment>, provider: Provider, intent: string): (r: Option<nat>)
    ensures r.Some? ==> r.value < |payments| && payments[r.value].provider == provider && payments[r.value].intent == Some(intent)
    ensures r.None? ==> forall i :: 0 <= i < |payments| ==> payments[i].provider != provider || payments[i].intent != Some(intent)
  {
    if |payments| == 0 then None
    else
      var last := payments[|payments| - 1];
      if last.provider == provider && last.intent == Some(intent) then Some(|payments| - 1)
      else PaymentByIntent(payments[..|payments| - 1], provider, intent)
  }

  /** The payment that an event names by its intent. */
  function NamedPayment(db: Tables, e: Event): nat {
    if e.intent.None? then 0
    else
      var id := PaymentByIntent(db.payments, e.provider, e.intent.value);
      if id.None? then 0 else id.value
  }

  /** The latest captured, not fully refunded payment of a booking. */
  function CapturedForBooking(payments: seq<Payment>, bookingId: nat): (r: Option<nat>)
    ensures r.Some? ==>
      && r.value < |payments| && payments[r.value].bookingId == bookingId
      && payments[r.value].status in {PaymentStatus.Captured, PaymentStatus.PartiallyRefunded}
    ensures forall i :: 0 <= i < |payments| && (r.None? || r.value < i) ==>
      payments[i].bookingId != bookingId || payments[i].status !in {PaymentStatus.Captured, PaymentStatus.PartiallyRefunded}
  {
    if |payments| == 0 then None
    else
      var last := payments[|payments| - 1];
      if last.bookingId == bookingId && Refundable(last.status) then Some(|payments| - 1)
      else CapturedForBooking(payments[..|payments| - 1], bookingId)
  }

  /** INSERT ... ON CONFLICT (idempotency_key) DO NOTHING, with its CHECK and its composite foreign key. */
  function InsertPayment(
    db: Tables, bookingId: nat, provider: Provider, key: string, amount: int, currency: string): (r: Write<Tables>)
    ensures r.Wrote? ==> r.value == db.(payments := r.value.payments)
  {
    if amount <= 0 then Rejected
    else if PaymentByKey(db.payments, key).Some? then NoRow
    else if bookingId >= |db.bookings| || db.bookings[bookingId].currency != currency then Rejected
    else Wrote(db.(payments := db.payments
                 + [Payment(bookingId, provider, key, None, PaymentStatus.Initiated, amount, currency, 0)]))
  }

  function AttachIntent(db: Tables, id: nat, intent: string): (r: Write<Tables>)
    ensures r.Wrote? ==> r.value == db.(payments := r.value.payments)
  {
    if id >= |db.payments| || db.payments[id].status != PaymentStatus.Initiated then NoRow
    else
      var other := PaymentByIntent(db.payments, db.payments[id].provider, intent);
      if other.Some? && other.value != id then Rejected
      else Wrote(db.(payments := db.payments[id :=
                   db.payments[id].(intent := Some(intent), status := PaymentStatus.RequiresAction)]))
  }

  function MarkCaptured(db: Tables, id: nat): (r: Write<Tables>)
    ensures r.Wrote? ==> r.value == db.(payments := r.value.payments)
  {
    if id >= |db.payments| || !Capturable(db.payments[id].status) then NoRow
    else Wrote(db.(payments := db.payments[id := db.payments[id].(status := PaymentStatus.Captured)]))
  }

  function MarkPaymentFailed(db: Tables, id: nat): (r: Write<Tables>)
    ensures r.Wrote? ==> r.value == db.(payments := r.value.payments)
  {
    if id >= |db.payments| || !Capturable(db.payments[id].status) then NoRow
    else Wrote(db.(payments := db.payments[id := db.payments[id].(status := PaymentStatus.Failed)]))
  }

  function CaptureLegs(p: Payment, id: nat): seq<Leg> {
    [Leg(ProviderClearing, Debit, p.amount, Some(p.bookingId), Some(id), None),
     Leg(PlatformEscrow, Credit, p.amount, Some(p.bookingId), Some(id), None)]
  }

  /** Post a group inside a transaction. */
  function Post<T>(db: Tables, currency: string, legs: seq<Leg>, value: T): (r: Tx<T>)
    ensures r.Committed? ==> r.db == db.(ledger := r.db.ledger) && r.value == value
  {
    var posted := PostGroup(db.ledger, currency, legs);
    if posted.Success? then Committed(db.(ledger := posted.value), value) else RolledBack
  }

  /** The capture transaction: payment and escrow entry together, or nothing. Returns the booking. */
  function ApplyCapture(db: Tables, e: Event): (r: Tx<nat>)
    ensures r.Committed? ==> r.db == db.(payments := r.db.payments, ledger := r.db.ledger)
  {
    if e.intent.None? then RolledBack
    else
      var id := PaymentByIntent(db.payments, e.provider, e.intent.value);
      if id.None? then RolledBack
      else
        var p := db.payments[id.value];
        if e.amount.Some? && e.amount.value != p.amount then RolledBack
        else
          var marked := MarkCaptured(db, id.value);
          if marked.NoRow? then Committed(db, p.bookingId)
          else Post(marked.value, p.currency, CaptureLegs(p, id.value), p.bookingId)
  }

  function ApplyFailure(db: Tables, e: Event): (r: Tx<()>)
    ensures r.Committed? ==> r.db == db.(payments := r.db.payments)
  {
    if e.intent.None? then RolledBack
    else
      var id := PaymentByIntent(db.payments, e.provider, e.intent.value);
      if id.None? then Committed(db, ())
      else
        var marked := MarkPaymentFailed(db, id.value);
        Committed(if marked.Wrote? then marked.value else db, ())
  }

  // ---- refunds ----

  predicate Live(s: RefundStatus) {
    s == RefundStatus.Pending || s == RefundStatus.Succeeded
  }

  predicate HasLiveRefund(refunds: seq<Refund>, paymentId: nat) {
    exists i :: 0 <= i < |refunds| && refunds[i].paymentId == paymentId && Live(refunds[i].status)
  }

  function InsertRefund(db: Tables, paymentId: nat, amount: int, currency: string): (r: Write<Tables>)
    ensures r.Wrote? ==> r.value == db.(refunds := r.value.refunds)
  {
    if amount <= 0 || paymentId >= |db.payments| || db.payments[paymentId].currency != currency then Rejected
    else Wrote(db.(refunds := db.refunds + [Refund(paymentId, None, RefundStatus.Pending, amount, currency)]))
  }

  predicate RefundRefTaken(refunds: seq<Refund>, id: nat, paymentId: nat, ref: string) {
    exists i :: 0 <= i < |refunds| && i != id && refunds[i].paymentId == paymentId && refunds[i].providerRef == Some(ref)
  }

  function AttachRefundRef(db: Tables, id: nat, ref: string): (r: Write<Tables>)
    ensures r.Wrote? ==> r.value == db.(refunds := r.value.refunds) && |r.value.refunds| == |db.refunds|
  {
    if id >= |db.refunds| then NoRow
    else if RefundRefTaken(db.refunds, id, db.refunds[id].paymentId, ref) then Rejected
    else Wrote(db.(refunds := db.refunds[id := db.refunds[id].(providerRef := Some(ref))]))
  }

  /** A pending refund of the payment to which the provider's reference is attached. */
  predicate Awaits(r: Refund, paymentId: nat, ref: string) {
    r.paymentId == paymentId && r.providerRef == Some(ref) && r.status == RefundStatus.Pending
  }

  function PendingRefund(refunds: seq<Refund>, paymentId: nat, ref: string): (r: Option<nat>)
    ensures r.Some? ==> r.value < |refunds| && Awaits(refunds[r.value], paymentId, ref)
    ensures r.None? ==> forall i :: 0 <= i < |refunds| ==> !Awaits(refunds[i], paymentId, ref)
  {
    if |refunds| == 0 then None
    else
      if Awaits(refunds[|refunds| - 1], paymentId, ref) then Some(|refunds| - 1)
      else PendingRefund(refunds[..|refunds| - 1], paymentId, ref)
  }

  /** Settle one refund row: the row, then the payment's counter and derived status under its CHECK. */
  function SettleRefundRow(db: Tables, id: nat): (r: Write<Tables>)
    requires id < |db.refunds| && db.refunds[id].paymentId < |db.payments|
    ensures r.Wrote? ==> r.value == db.(refunds := r.value.refunds, payments := r.value.payments) && |r.value.refunds| == |db.refunds|
  {
    var r := db.refunds[id];
    var p := db.payments[r.paymentId];
    var refunded := p.refunded + r.amount;
    if refunded > p.amount then Rejected
    else
      Wrote(db.(
        refunds := db.refunds[id := r.(status := RefundStatus.Succeeded)],
        payments := db.payments[r.paymentId := p.(
          refunded := refunded,
          status := if refunded >= p.amount then PaymentStatus.Refunded else PaymentStatus.PartiallyRefunded)]))
  }

  function RefundLegs(p: Payment, id: nat, amount: int): seq<Leg> {
    [Leg(PlatformEscrow, Debit, amount, Some(p.bookingId), Some(id), None),
     Leg(GuestRefundClearing, Credit, amount, Some(p.bookingId), Some(id), None)]
  }

  /** The refund transaction. Returns the booking. */
  function ApplyRefund(db: Tables, e: Event): (r: Tx<nat>)
    ensures r.Committed? ==>
      r.db == db.(payments := r.db.payments, refunds := r.db.refunds, ledger := r.db.ledger) && |r.db.refunds| == |db.refunds|
  {
    if e.intent.None? || e.refundRef.None? then RolledBack
    else
      var id := PaymentByIntent(db.payments, e.provider, e.intent.value);
      if id.None? then RolledBack
      else
        var p := db.payments[id.value];
        var refund := PendingRefund(db.refunds, id.value, e.refundRef.value);
        if refund.None? then Committed(db, p.bookingId)
        else
          var settled := SettleRefundRow(db, refund.value);
          if settled.Wrote?
          then Post(settled.value, p.currency, RefundLegs(p, id.value, db.refunds[refund.value].amount), p.bookingId)
          else RolledBack
  }

  // ---- payouts ----

  function PayoutByBooking(payouts: seq<Payout>, bookingId: nat): (r: Option<nat>)
    ensures r.Some? ==> r.value < |payouts| && payouts[r.value].bookingId == bookingId
    ensures r.None? ==> forall i :: 0 <= i < |payouts| ==> payouts[i].bookingId != bookingId
  {
    if |payouts| == 0 then None
    else if payouts[|payouts| - 1].bookingId == bookingId then Some(|payouts| - 1)
    else PayoutByBooking(payouts[..|payouts| - 1], bookingId)
  }

  /** INSERT ... ON CONFLICT (booking_id) DO NOTHING, with its positive-amount CHECK. */
  function InsertPayout(db: Tables, bookingId: nat, amount: int, currency: string, provider: Provider): (r: Write<Tables>)
    ensures r.Wrote? ==> r.value == db.(payouts := r.value.payouts)
  {
    if amount <= 0 then Rejected
    else if PayoutByBooking(db.payouts, bookingId).Some? then NoRow
    else if bookingId >= |db.bookings| || db.bookings[bookingId].currency != currency then Rejected
    else Wrote(db.(payouts := db.payouts + [Payout(bookingId, PayoutStatus.Pending, amount, currency, provider, None)]))
  }

  function SplitLegs(m: Money, bookingId: nat, paymentId: nat, payoutId: nat): seq<Leg> {
    [Leg(PlatformEscrow, Debit, m.total, Some(bookingId), Some(paymentId), None),
     Leg(HostPayable, Credit, HostShare(m), Some(bookingId), None, Some(payoutId)),
     Leg(PlatformRevenue, Credit, Revenue(m), Some(bookingId), None, None),
     Leg(TaxPayable, Credit, m.taxes, Some(bookingId), None, None)]
  }

  /** The split: one payout row and one four-leg group. Returns the created payout, if any. */
  function SplitEscrow(db: Tables, bookingId: nat, paymentId: nat): (r: Tx<Option<nat>>)
    requires bookingId < |db.bookings| && paymentId < |db.payments|
    ensures r.Committed? ==> r.db == db.(payouts := r.db.payouts, ledger := r.db.ledger)
    ensures r.Committed? && r.value.None? ==> r.db == db
  {
    var b := db.bookings[bookingId];
    match InsertPayout(db, bookingId, HostShare(b.money), b.currency, db.payments[paymentId].provider)
    case Rejected => RolledBack
    case NoRow => Committed(db, None)
    case Wrote(db') => Post(db', b.currency, SplitLegs(b.money, bookingId, paymentId, |db.payouts|), Some(|db.payouts|))
  }

  /** A guarded status UPDATE on one payout row. */
  function MovePayout(db: Tables, id: nat, from: set<PayoutStatus>, to: PayoutStatus): (r: Write<Tables>)
    ensures r.Wrote? ==> r.value == db.(payouts := r.value.payouts)
  {
    if id >= |db.payouts| || db.payouts[id].status !in from then NoRow
    else Wrote(db.(payouts := db.payouts[id := db.payouts[id].(status := to)]))
  }

  function MarkInTransit(db: Tables, id: nat, provider: Provider, transfer: string): (r: Write<Tables>)
    ensures r.Wrote? ==> r.value == db.(payouts := r.value.payouts)
  {
    if id >= |db.payouts| || db.payouts[id].status != PayoutStatus.Pending then NoRow
    else Wrote(db.(payouts := db.payouts[id :=
                 db.payouts[id].(status := PayoutStatus.InTransit, provider := provider, transfer := Some(transfer))]))
  }

  function MarkPaid(db: Tables, id: nat): (r: Write<Tables>)
    ensures r.Wrote? ==> r.value == db.(payouts := r.value.payouts)
  {
    MovePayout(db, id, {PayoutStatus.InTransit}, PayoutStatus.Paid)
  }

  function MarkPayoutFailed(db: Tables, id: nat): (r: Write<Tables>)
    ensures r.Wrote? ==> r.value == db.(payouts := r.value.payouts)
  {
    MovePayout(db, id, {PayoutStatus.Pending, PayoutStatus.InTransit}, PayoutStatus.Failed)
  }

  function HoldPayout(db: Tables, id: nat): (r: Write<Tables>)
    ensures r.Wrote? ==> r.value == db.(payouts := r.value.payouts)
  {
    MovePayout(db, id, {PayoutStatus.Pending, PayoutStatus.Scheduled}, PayoutStatus.OnHold)
  }

  function ReleasePayout(db: Tables, id: nat): (r: Write<Tables>)
    ensures r.Wrote? ==> r.value == db.(payouts := r.value.payouts)
  {
    MovePayout(db, id, {PayoutStatus.OnHold}, PayoutStatus.Pending)
  }

  function RetryPayout(db: Tables, id: nat): (r: Write<Tables>)
    ensures r.Wrote? ==> r.value == db.(payouts := r.value.payouts)
  {
    MovePayout(db, id, {PayoutStatus.Failed}, PayoutStatus.Pending)
  }

  function SettleLegs(q: Payout, id: nat): seq<Leg> {
    [Leg(HostPayable, Debit, q.amount, Some(q.bookingId), None, Some(id)),
     Leg(ProviderClearing, Credit, q.amount, Some(q.bookingId), None, Some(id))]
  }

  /** The settlement transaction: PAID and its ledger group together, or nothing. */
  function SettlePayout(db: Tables, id: nat): (r: Tx<bool>)
    ensures r.Committed? ==> r.db == db.(payouts := r.db.payouts, ledger := r.db.ledger)
  {
    var paid := MarkPaid(db, id);
    if paid.NoRow? then Committed(db, false)
    else Post(paid.value, db.payouts[id].currency, SettleLegs(db.payouts[id], id), true)
  }

  // ---- manual adjustments ----

  predicate CurrencyCode(c: string) {
    |c| == 3 && forall i :: 0 <= i < 3 ==> 'A' <= c[i] <= 'Z'
  }

  predicate AdjustmentValid(a: Adjustment) {
    a.from != a.to && a.amount > 0 && CurrencyCode(a.currency)
  }

  function AdjustLegs(a: Adjustment): seq<Leg> {
    [Leg(a.from, Debit, a.amount, a.bookingId, None, None),
     Leg(a.to, Credit, a.amount, a.bookingId, None, None)]
  }

  function Adjust(db: Tables, a: Adjustment): (r: Tx<()>)
    ensures r.Committed? ==> r.db == db.(ledger := r.db.ledger, adjustments := r.db.adjustments)
  {
    if !AdjustmentValid(a) then RolledBack
    else Post(db.(adjustments := db.adjustments + [a]), a.currency, AdjustLegs(a), ())
  }

  // ---- the webhook inbox ----

  predicate Recorded(events: seq<Event>, provider: Provider, eventId: string) {
    exists i :: 0 <= i < |events| && events[i].provider == provider && events[i].eventId == eventId
  }

  /** INSERT ... ON CONFLICT (provider, event_id) DO NOTHING. */
  function RecordEvent(db: Tables, e: Event, signatureValid: bool): (r: Write<Tables>)
    ensures r.Wrote? ==> r.value == db.(events := r.value.events)
  {
    if Recorded(db.events, e.provider, e.eventId) then NoRow
    else
      var status := if signatureValid then WebhookStatus.Received else WebhookStatus.Skipped;
      Wrote(db.(events := db.events + [e.(status := status, attempts := 0)]))
  }

  function ClaimEvent(db: Tables, id: nat): (r: Write<Tables>)
    ensures r.Wrote? ==> r.value == db.(events := r.value.events)
  {
    if id >= |db.events| || db.events[id].status !in {WebhookStatus.Received, WebhookStatus.Failed} then NoRow
    else
      var e := db.events[id];
      Wrote(db.(events := db.events[id := e.(status := WebhookStatus.Processing, attempts := e.attempts + 1)]))
  }

  function MarkEvent(db: Tables, id: nat, status: WebhookStatus): (r: Write<Tables>)
    ensures r.Wrote? ==> r.value == db.(events := r.value.events)
  {
    if id >= |db.events| then NoRow
    else Wrote(db.(events := db.events[id := db.events[id].(status := status)]))
  }
}
