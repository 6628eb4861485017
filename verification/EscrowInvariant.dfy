/**
 * What every statement and transaction of the payment module keeps, whatever
 * program issues it: referential facts about the rows, and reconciliation of the
 * ledger with the rows, account by account and posting by posting.
 */
module EscrowInvariant {
  import opened Common
  import opened Pricing
  import opened Bookings
  import opened Ledger
  import opened EscrowTables

  // ---- row facts ----

  function SucceededW(paymentId: nat): Refund -> int {
    (r: Refund) => if r.paymentId == paymentId && r.status == RefundStatus.Succeeded then r.amount else 0
  }

  /** The status of a payment says exactly how much of it went back. */
  predicate StatusMatchesRefunds(p: Payment) {
    match p.status
    case PartiallyRefunded => 0 < p.refunded < p.amount
    case Refunded => p.refunded == p.amount
    case _ => p.refunded == 0
  }

  ghost predicate PaymentOk(db: Tables, i: nat)
    requires i < |db.payments|
  {
    var p := db.payments[i];
    && p.bookingId < |db.bookings| && p.currency == db.bookings[p.bookingId].currency
    && 0 < p.amount
    && StatusMatchesRefunds(p)
    && (p.intent.None? <==> p.status == PaymentStatus.Initiated)
    && p.refunded == Sum(db.refunds, SucceededW(i))
  }

  ghost predicate RefundOk(db: Tables, j: nat)
    requires j < |db.refunds|
  {
    var r := db.refunds[j];
    && r.paymentId < |db.payments| && 0 < r.amount
    && r.currency == db.payments[r.paymentId].currency
    && IsCaptured(db.payments[r.paymentId].status)
  }

  ghost predicate PayoutOk(db: Tables, q: nat)
    requires q < |db.payouts|
  {
    var p := db.payouts[q];
    && p.bookingId < |db.bookings| && p.currency == db.bookings[p.bookingId].currency
    && 0 < p.amount == HostShare(db.bookings[p.bookingId].money)
  }

  /** The UNIQUE constraints. */
  ghost predicate KeysUnique(db: Tables) {
    && (forall i, j :: 0 <= i < j < |db.payments| ==> db.payments[i].key != db.payments[j].key)
    && (forall i, j :: 0 <= i < |db.payments| && 0 <= j < |db.payments| && i != j && db.payments[i].intent.Some? ==>
          db.payments[i].provider != db.payments[j].provider || db.payments[i].intent != db.payments[j].intent)
    && (forall i, j :: 0 <= i < |db.refunds| && 0 <= j < |db.refunds| && i != j && db.refunds[i].providerRef.Some? ==>
          db.refunds[i].paymentId != db.refunds[j].paymentId || db.refunds[i].providerRef != db.refunds[j].providerRef)
    && (forall i, j :: 0 <= i < j < |db.payouts| ==> db.payouts[i].bookingId != db.payouts[j].bookingId)
    && (forall i, j :: 0 <= i < j < |db.events| ==>
          db.events[i].provider != db.events[j].provider || db.events[i].eventId != db.events[j].eventId)
  }

  ghost predicate RowsOk(db: Tables) {
    && (forall i :: 0 <= i < |db.bookings| ==> MoneyChecks(db.bookings[i].money))
    && (forall i :: 0 <= i < |db.payments| ==> PaymentOk(db, i))
    && (forall j :: 0 <= j < |db.refunds| ==> RefundOk(db, j))
    && (forall q :: 0 <= q < |db.payouts| ==> PayoutOk(db, q))
    && GroupsAreOld(db.ledger)
  }

  // ---- closed forms ----

  predicate PaymentInScope(p: Payment, s: Scope) {
    match s
    case InCurrency(c) => p.currency == c
    case OfBooking(b) => p.bookingId == b
  }

  predicate PayoutInScope(q: Payout, s: Scope) {
    match s
    case InCurrency(c) => q.currency == c
    case OfBooking(b) => q.bookingId == b
  }

  predicate AdjustmentInScope(a: Adjustment, s: Scope) {
    match s
    case InCurrency(c) => a.currency == c
    case OfBooking(b) => a.bookingId == Some(b)
  }

  function CapturedW(s: Scope): Payment -> int {
    (p: Payment) => if PaymentInScope(p, s) && IsCaptured(p.status) then p.amount else 0
  }

  function RefundedW(s: Scope): Payment -> int {
    (p: Payment) => if PaymentInScope(p, s) then p.refunded else 0
  }

  function UnpaidW(s: Scope): Payout -> int {
    (q: Payout) => if PayoutInScope(q, s) && q.status != PayoutStatus.Paid then q.amount else 0
  }

  function PaidW(s: Scope): Payout -> int {
    (q: Payout) => if PayoutInScope(q, s) && q.status == PayoutStatus.Paid then q.amount else 0
  }

  datatype Part = Whole | PlatformPart | TaxPart

  function PartOf(m: Money, part: Part): int {
    match part
    case Whole => m.total
    case PlatformPart => Revenue(m)
    case TaxPart => m.taxes
  }

  /** A part of the total of the booking that a payout settles. */
  function SettledW(bookings: seq<Booking>, s: Scope, part: Part): Payout -> int {
    (q: Payout) =>
      if PayoutInScope(q, s) && q.bookingId < |bookings| then PartOf(bookings[q.bookingId].money, part) else 0
  }

  function AdjustedW(a: Account, s: Scope): Adjustment -> int {
    (m: Adjustment) =>
      if !AdjustmentInScope(m, s) then 0
      else (if m.to == a then m.amount else 0) - (if m.from == a then m.amount else 0)
  }

  function CapturedTotal(db: Tables, s: Scope): int { Sum(db.payments, CapturedW(s)) }

  function RefundedTotal(db: Tables, s: Scope): int { Sum(db.payments, RefundedW(s)) }

  function UnpaidTotal(db: Tables, s: Scope): int { Sum(db.payouts, UnpaidW(s)) }

  function PaidTotal(db: Tables, s: Scope): int { Sum(db.payouts, PaidW(s)) }

  function SettledTotal(db: Tables, s: Scope, part: Part): int { Sum(db.payouts, SettledW(db.bookings, s, part)) }

  function AdjustedTotal(db: Tables, a: Account, s: Scope): int { Sum(db.adjustments, AdjustedW(a, s)) }

  /** What the rows say an account's balance must be, manual adjustments aside. */
  function RowBalance(db: Tables, a: Account, s: Scope): int {
    match a
    case PlatformEscrow => CapturedTotal(db, s) - RefundedTotal(db, s) - SettledTotal(db, s, Whole)
    case HostPayable => UnpaidTotal(db, s)
    case PlatformRevenue => SettledTotal(db, s, PlatformPart)
    case TaxPayable => SettledTotal(db, s, TaxPart)
    case GuestRefundClearing => RefundedTotal(db, s)
    case ProviderClearing => PaidTotal(db, s) - CapturedTotal(db, s)
  }

  /** What the rows say a measure of the ledger must be. */
  function Closed(db: Tables, probe: Probe): int {
    match probe
    case Balance(a, s) => RowBalance(db, a, s) + AdjustedTotal(db, a, s)
    case Trial(_) => 0
    case CapturePosts(p) => if p < |db.payments| && IsCaptured(db.payments[p].status) then 1 else 0
    case RefundCredits(p) => if p < |db.payments| then db.payments[p].refunded else 0
    case SplitPosts(q) => if q < |db.payouts| then 1 else 0
    case SettlePosts(q) => if q < |db.payouts| && db.payouts[q].status == PayoutStatus.Paid then 1 else 0
  }

  /** Every measure of the ledger equals its closed form over the rows. */
  ghost predicate Reconciled(db: Tables) {
    forall probe :: Measure(db.ledger, probe) == Closed(db, probe)
  }

  ghost predicate EscrowOk(db: Tables) {
    RowsOk(db) && KeysUnique(db) && Reconciled(db)
  }

  lemma EmptyIsOk()
    ensures EscrowOk(EMPTY)
  {
  }

  // ---- effects of single rows on the closed forms ----

  /** Replacing one payment moves the two payment totals by that payment's difference. */
  lemma PaymentTotals(db: Tables, i: nat, p: Payment, s: Scope)
    requires i < |db.payments|
    ensures
      var db' := db.(payments := db.payments[i := p]);
      && CapturedTotal(db', s) == CapturedTotal(db, s) - CapturedW(s)(db.payments[i]) + CapturedW(s)(p)
      && RefundedTotal(db', s) == RefundedTotal(db, s) - RefundedW(s)(db.payments[i]) + RefundedW(s)(p)
  {
    SumUpdate(db.payments, i, p, CapturedW(s));
    SumUpdate(db.payments, i, p, RefundedW(s));
  }

  lemma PayoutTotals(db: Tables, q: nat, p: Payout, s: Scope)
    requires q < |db.payouts| && p.bookingId == db.payouts[q].bookingId && p.currency == db.payouts[q].currency
    ensures
      var db' := db.(payouts := db.payouts[q := p]);
      && UnpaidTotal(db', s) == UnpaidTotal(db, s) - UnpaidW(s)(db.payouts[q]) + UnpaidW(s)(p)
      && PaidTotal(db', s) == PaidTotal(db, s) - PaidW(s)(db.payouts[q]) + PaidW(s)(p)
      && forall part :: SettledTotal(db', s, part) == SettledTotal(db, s, part)
  {
    SumUpdate(db.payouts, q, p, UnpaidW(s));
    SumUpdate(db.payouts, q, p, PaidW(s));
    forall part ensures SettledTotal(db.(payouts := db.payouts[q := p]), s, part) == SettledTotal(db, s, part) {
      SumUpdate(db.payouts, q, p, SettledW(db.bookings, s, part));
    }
  }

  /** Status changes and new bookings leave the settled totals alone: amounts are immutable. */
  lemma BookingsKeepSettledTotals(db: Tables, bookings': seq<Booking>, s: Scope, part: Part)
    requires RowsOk(db) && BookingsGrow(db.bookings, bookings')
    ensures SettledTotal(db.(bookings := bookings'), s, part) == SettledTotal(db, s, part)
  {
    forall q | 0 <= q < |db.payouts|
      ensures SettledW(db.bookings, s, part)(db.payouts[q]) == SettledW(bookings', s, part)(db.payouts[q])
    {
      assert PayoutOk(db, q);
    }
    SumCong(db.payouts, SettledW(db.bookings, s, part), SettledW(bookings', s, part));
  }

  // ---- reconciliation, transaction by transaction ----

  lemma BookingsReconcile(db: Tables, bookings': seq<Booking>)
    requires EscrowOk(db) && BookingsGrow(db.bookings, bookings')
    requires forall i :: 0 <= i < |bookings'| ==> MoneyChecks(bookings'[i].money)
    ensures EscrowOk(db.(bookings := bookings'))
  {
    var db' := db.(bookings := bookings');
    forall probe ensures Measure(db'.ledger, probe) == Closed(db', probe) {
      assert Measure(db.ledger, probe) == Closed(db, probe);
      if probe.Balance? {
        forall part ensures SettledTotal(db', probe.scope, part) == SettledTotal(db, probe.scope, part) {
          BookingsKeepSettledTotals(db, bookings', probe.scope, part);
        }
      }
    }
    assert forall i :: 0 <= i < |db.payments| ==> PaymentOk(db, i) ==> PaymentOk(db', i);
    assert forall i :: 0 <= i < |db.refunds| ==> RefundOk(db, i) ==> RefundOk(db', i);
    assert forall i :: 0 <= i < |db.payouts| ==> PayoutOk(db, i) ==> PayoutOk(db', i);
  }

  /** A new payment row moves no total: it is not captured and nothing of it went back. */
  lemma NewPaymentTotals(db: Tables, p: Payment, probe: Probe)
    requires p.status == PaymentStatus.Initiated && p.refunded == 0
    ensures Closed(db.(payments := db.payments + [p]), probe) == Closed(db, probe)
  {
    if probe.Balance? {
      SumAppend(db.payments, p, CapturedW(probe.scope));
      SumAppend(db.payments, p, RefundedW(probe.scope));
    }
  }

  lemma NewPaymentKeepsRows(db: Tables, p: Payment)
    requires RowsOk(db) && p.status == PaymentStatus.Initiated && p.intent.None? && p.refunded == 0 && 0 < p.amount
    requires p.bookingId < |db.bookings| && p.currency == db.bookings[p.bookingId].currency
    ensures RowsOk(db.(payments := db.payments + [p]))
  {
    var db' := db.(payments := db.payments + [p]);
    var n := |db.payments|;
    forall i | 0 <= i < |db'.payments| ensures PaymentOk(db', i) {
      if i == n {
        forall j | 0 <= j < |db.refunds| ensures SucceededW(n)(db.refunds[j]) == 0 {
          assert RefundOk(db, j);
        }
        SumZero(db.refunds, SucceededW(n));
      } else {
        assert PaymentOk(db, i);
      }
    }
    assert forall j :: 0 <= j < |db.refunds| ==> RefundOk(db, j) ==> RefundOk(db', j);
    assert forall q :: 0 <= q < |db.payouts| ==> PayoutOk(db, q) ==> PayoutOk(db', q);
  }

  lemma InsertPaymentReconciles(db: Tables, bookingId: nat, provider: Provider, key: string, amount: int, currency: string)
    requires EscrowOk(db) && InsertPayment(db, bookingId, provider, key, amount, currency).Wrote?
    ensures EscrowOk(InsertPayment(db, bookingId, provider, key, amount, currency).value)
  {
    var db' := InsertPayment(db, bookingId, provider, key, amount, currency).value;
    var p := db'.payments[|db.payments|];
    NewPaymentKeepsRows(db, p);
    forall probe ensures Measure(db'.ledger, probe) == Closed(db', probe) {
      assert Measure(db.ledger, probe) == Closed(db, probe);
      NewPaymentTotals(db, p, probe);
    }
  }

  /** Replacing a payment row, without moving money, keeps everything. */
  lemma PaymentRowReconciles(db: Tables, i: nat, p: Payment)
    requires EscrowOk(db) && i < |db.payments|
    requires
      var old_ := db.payments[i];
      && p == old_.(status := p.status, intent := p.intent)
      && !IsCaptured(old_.status) && !IsCaptured(p.status)
      && p.intent.Some? && p.status != PaymentStatus.Initiated
    requires forall j :: 0 <= j < |db.payments| && j != i && p.intent.Some? ==>
      db.payments[j].provider != p.provider || db.payments[j].intent != p.intent
    ensures EscrowOk(db.(payments := db.payments[i := p]))
  {
    var db' := db.(payments := db.payments[i := p]);
    assert PaymentOk(db, i);
    forall probe ensures Measure(db'.ledger, probe) == Closed(db', probe) {
      assert Measure(db.ledger, probe) == Closed(db, probe);
      if probe.Balance? {
        PaymentTotals(db, i, p, probe.scope);
      }
    }
    forall k | 0 <= k < |db'.payments| ensures PaymentOk(db', k) {
      assert PaymentOk(db, k);
    }
    forall j | 0 <= j < |db'.refunds| ensures RefundOk(db', j) {
      assert RefundOk(db, j);
    }
    assert forall q :: 0 <= q < |db.payouts| ==> PayoutOk(db, q) ==> PayoutOk(db', q);
  }

  lemma AttachIntentReconciles(db: Tables, id: nat, intent: string)
    requires EscrowOk(db) && AttachIntent(db, id, intent).Wrote?
    ensures EscrowOk(AttachIntent(db, id, intent).value)
  {
    var p := AttachIntent(db, id, intent).value.payments[id];
    forall j | 0 <= j < |db.payments| && j != id
      ensures db.payments[j].provider != p.provider || db.payments[j].intent != p.intent
    {
      var other := PaymentByIntent(db.payments, p.provider, intent);
    }
    PaymentRowReconciles(db, id, p);
  }

  lemma FailureReconciles(db: Tables, e: Event)
    requires EscrowOk(db) && ApplyFailure(db, e).Committed?
    ensures EscrowOk(ApplyFailure(db, e).db)
  {
    var id := PaymentByIntent(db.payments, e.provider, e.intent.value);
    if id.Some? && Capturable(db.payments[id.value].status) {
      var i := id.value;
      var p := db.payments[i].(status := PaymentStatus.Failed);
      PaymentRowReconciles(db, i, p);
    }
  }

  /** A debit and a credit of the same non-negative amount always post. */
  lemma PairPosts(ledger: seq<Entry>, currency: string, debit: Leg, credit: Leg)
    requires GroupsAreOld(ledger)
    requires debit.direction == Debit && credit.direction == Credit && debit.amount == credit.amount >= 0
    ensures PostGroup(ledger, currency, [debit, credit]).Success?
    ensures
      var ledger' := PostGroup(ledger, currency, [debit, credit]).value;
      && ledger <= ledger' && GroupsAreOld(ledger')
      && forall probe ::
        Measure(ledger', probe) == Measure(ledger, probe) + LegWeight(probe, currency)(debit) + LegWeight(probe, currency)(credit)
  {
    var legs := [debit, credit];
    SumTwo(debit, credit, DebitW());
    SumTwo(debit, credit, CreditW());
    NonNegativeLegsCommitIff(ledger, currency, legs);
    PostAppends(ledger, currency, legs);
    forall probe
      ensures Measure(PostGroup(ledger, currency, legs).value, probe)
              == Measure(ledger, probe) + LegWeight(probe, currency)(debit) + LegWeight(probe, currency)(credit)
    {
      PostMeasure(ledger, currency, legs, probe);
      SumTwo(debit, credit, LegWeight(probe, currency));
    }
  }

  /** Capture: the payment becomes captured and the clearing-to-escrow pair is posted, atomically. */
  lemma CaptureReconciles(db: Tables, e: Event)
    requires EscrowOk(db) && ApplyCapture(db, e).Committed?
    ensures EscrowOk(ApplyCapture(db, e).db)
    ensures db.ledger <= ApplyCapture(db, e).db.ledger
  {
    var i := PaymentByIntent(db.payments, e.provider, e.intent.value).value;
    var p := db.payments[i];
    assert PaymentOk(db, i);
    if Capturable(p.status) {
      var p' := p.(status := PaymentStatus.Captured);
      var legs := CaptureLegs(p, i);
      PairPosts(db.ledger, p.currency, legs[0], legs[1]);
      var db' := ApplyCapture(db, e).db;
      assert legs == [legs[0], legs[1]];
      assert db' == db.(payments := db.payments[i := p'], ledger := db'.ledger);
      forall probe ensures Measure(db'.ledger, probe) == Closed(db', probe) {
        assert Measure(db.ledger, probe) == Closed(db, probe);
        if probe.Balance? {
          PaymentTotals(db, i, p', probe.scope);
        }
      }
      CaptureKeepsRows(db, i, db'.ledger);
    }
  }

  lemma CaptureKeepsRows(db: Tables, i: nat, ledger': seq<Entry>)
    requires RowsOk(db) && KeysUnique(db) && i < |db.payments| && Capturable(db.payments[i].status) && db.payments[i].intent.Some?
    requires GroupsAreOld(ledger')
    ensures
      var db' := db.(payments := db.payments[i := db.payments[i].(status := PaymentStatus.Captured)], ledger := ledger');
      RowsOk(db') && KeysUnique(db')
  {
    var db' := db.(payments := db.payments[i := db.payments[i].(status := PaymentStatus.Captured)], ledger := ledger');
    forall k | 0 <= k < |db'.payments| ensures PaymentOk(db', k) {
      assert PaymentOk(db, k);
    }
    forall j | 0 <= j < |db'.refunds| ensures RefundOk(db', j) {
      assert RefundOk(db, j);
    }
    assert forall q :: 0 <= q < |db.payouts| ==> PayoutOk(db, q) ==> PayoutOk(db', q);
  }

  // ---- refunds ----

  lemma InsertRefundReconciles(db: Tables, paymentId: nat, amount: int, currency: string)
    requires EscrowOk(db) && InsertRefund(db, paymentId, amount, currency).Wrote?
    requires IsCaptured(db.payments[paymentId].status)
    ensures EscrowOk(InsertRefund(db, paymentId, amount, currency).value)
  {
    var db' := InsertRefund(db, paymentId, amount, currency).value;
    var r := db'.refunds[|db.refunds|];
    forall probe ensures Measure(db'.ledger, probe) == Closed(db', probe) {
      assert Measure(db.ledger, probe) == Closed(db, probe);
    }
    forall i | 0 <= i < |db'.payments| ensures PaymentOk(db', i) {
      assert PaymentOk(db, i);
      SumAppend(db.refunds, r, SucceededW(i));
    }
    forall j | 0 <= j < |db'.refunds| ensures RefundOk(db', j) {
      assert j < |db.refunds| ==> RefundOk(db, j);
    }
    assert forall q :: 0 <= q < |db.payouts| ==> PayoutOk(db, q) ==> PayoutOk(db', q);
  }

  lemma AttachRefundReconciles(db: Tables, id: nat, ref: string)
    requires EscrowOk(db) && AttachRefundRef(db, id, ref).Wrote?
    ensures EscrowOk(AttachRefundRef(db, id, ref).value)
  {
    var db' := AttachRefundRef(db, id, ref).value;
    forall probe ensures Measure(db'.ledger, probe) == Closed(db', probe) {
      assert Measure(db.ledger, probe) == Closed(db, probe);
    }
    forall i | 0 <= i < |db'.payments| ensures PaymentOk(db', i) {
      assert PaymentOk(db, i);
      SumUpdate(db.refunds, id, db'.refunds[id], SucceededW(i));
    }
    forall j | 0 <= j < |db'.refunds| ensures RefundOk(db', j) {
      assert RefundOk(db, j);
    }
    assert forall q :: 0 <= q < |db.payouts| ==> PayoutOk(db, q) ==> PayoutOk(db', q);
  }

  /** The counter update of a settled refund keeps every row fact. */
  lemma SettleKeepsRows(db: Tables, id: nat, ledger': seq<Entry>)
    requires RowsOk(db) && KeysUnique(db)
    requires id < |db.refunds| && db.refunds[id].status == RefundStatus.Pending
    requires db.refunds[id].paymentId < |db.payments| && SettleRefundRow(db, id).Wrote?
    requires GroupsAreOld(ledger')
    ensures
      var db' := SettleRefundRow(db, id).value.(ledger := ledger');
      RowsOk(db') && KeysUnique(db')
  {
    var db' := SettleRefundRow(db, id).value.(ledger := ledger');
    assert RefundOk(db, id);
    forall k | 0 <= k < |db'.payments| ensures PaymentOk(db', k) {
      assert PaymentOk(db, k);
      SumUpdate(db.refunds, id, db'.refunds[id], SucceededW(k));
    }
    forall j | 0 <= j < |db'.refunds| ensures RefundOk(db', j) {
      assert RefundOk(db, j);
    }
    assert forall q :: 0 <= q < |db.payouts| ==> PayoutOk(db, q) ==> PayoutOk(db', q);
  }

  /** Settling moves the payment's refunded total, and nothing captured. */
  lemma SettleTotals(db: Tables, id: nat, s: Scope)
    requires RowsOk(db) && id < |db.refunds| && db.refunds[id].paymentId < |db.payments|
    requires db.refunds[id].status == RefundStatus.Pending && SettleRefundRow(db, id).Wrote?
    ensures
      var mid := SettleRefundRow(db, id).value;
      && CapturedTotal(mid, s) == CapturedTotal(db, s)
      && RefundedTotal(mid, s) == RefundedTotal(db, s)
           + if PaymentInScope(db.payments[db.refunds[id].paymentId], s) then db.refunds[id].amount else 0
  {
    var i := db.refunds[id].paymentId;
    assert PaymentOk(db, i) && RefundOk(db, id);
    PaymentTotals(db, i, SettleRefundRow(db, id).value.payments[i], s);
  }

  /** The ledger pair of a refund and its row update move every measure alike. */
  lemma SettleMeasures(db: Tables, id: nat, probe: Probe)
    requires RowsOk(db) && id < |db.refunds| && db.refunds[id].paymentId < |db.payments|
    requires db.refunds[id].status == RefundStatus.Pending && SettleRefundRow(db, id).Wrote?
    ensures
      var i := db.refunds[id].paymentId;
      var p := db.payments[i];
      var legs := RefundLegs(p, i, db.refunds[id].amount);
      Closed(SettleRefundRow(db, id).value, probe)
      == Closed(db, probe) + LegWeight(probe, p.currency)(legs[0]) + LegWeight(probe, p.currency)(legs[1])
  {
    assert PaymentOk(db, db.refunds[id].paymentId) && RefundOk(db, id);
    if probe.Balance? {
      SettleTotals(db, id, probe.scope);
    }
  }

  lemma ClosedIgnoresLedger(db: Tables, ledger': seq<Entry>, probe: Probe)
    ensures Closed(db.(ledger := ledger'), probe) == Closed(db, probe)
  {
  }

  /** Refund settlement: row, counter, derived status and ledger pair move together. */
  lemma RefundReconciles(db: Tables, e: Event)
    requires EscrowOk(db) && ApplyRefund(db, e).Committed?
    ensures EscrowOk(ApplyRefund(db, e).db)
    ensures db.ledger <= ApplyRefund(db, e).db.ledger
  {
    var i := PaymentByIntent(db.payments, e.provider, e.intent.value).value;
    var refund := PendingRefund(db.refunds, i, e.refundRef.value);
    if refund.Some? {
      var id := refund.value;
      var p := db.payments[i];
      assert RefundOk(db, id);
      var mid := SettleRefundRow(db, id).value;
      var legs := RefundLegs(p, i, db.refunds[id].amount);
      assert legs == [legs[0], legs[1]];
      PairPosts(db.ledger, p.currency, legs[0], legs[1]);
      var db' := ApplyRefund(db, e).db;
      assert db' == mid.(ledger := db'.ledger);
      SettleKeepsRows(db, id, db'.ledger);
      forall probe ensures Measure(db'.ledger, probe) == Closed(db', probe) {
        assert Measure(db.ledger, probe) == Closed(db, probe);
        SettleMeasures(db, id, probe);
        ClosedIgnoresLedger(mid, db'.ledger, probe);
      }
    }
  }

  // ---- payouts ----

  /** The split's four legs post exactly when the host's share is positive. */
  lemma SplitPosts4(ledger: seq<Entry>, currency: string, m: Money, bookingId: nat, paymentId: nat, payoutId: nat)
    requires GroupsAreOld(ledger) && MoneyChecks(m)
    ensures PostGroup(ledger, currency, SplitLegs(m, bookingId, paymentId, payoutId)).Success?
    ensures
      var legs := SplitLegs(m, bookingId, paymentId, payoutId);
      var ledger' := PostGroup(ledger, currency, legs).value;
      && ledger <= ledger' && GroupsAreOld(ledger')
      && forall probe ::
        Measure(ledger', probe) == Measure(ledger, probe)
          + LegWeight(probe, currency)(legs[0]) + LegWeight(probe, currency)(legs[1])
          + LegWeight(probe, currency)(legs[2]) + LegWeight(probe, currency)(legs[3])
  {
    var legs := SplitLegs(m, bookingId, paymentId, payoutId);
    assert legs == [legs[0], legs[1], legs[2], legs[3]];
    SumFour(legs[0], legs[1], legs[2], legs[3], DebitW());
    SumFour(legs[0], legs[1], legs[2], legs[3], CreditW());
    NonNegativeLegsCommitIff(ledger, currency, legs);
    PostAppends(ledger, currency, legs);
    forall probe
      ensures Measure(PostGroup(ledger, currency, legs).value, probe) == Measure(ledger, probe)
          + LegWeight(probe, currency)(legs[0]) + LegWeight(probe, currency)(legs[1])
          + LegWeight(probe, currency)(legs[2]) + LegWeight(probe, currency)(legs[3])
    {
      PostMeasure(ledger, currency, legs, probe);
      SumFour(legs[0], legs[1], legs[2], legs[3], LegWeight(probe, currency));
    }
  }

  /**
   * The split of a booking rolls back exactly when the host's share is not positive
   * (the payouts table demands a positive amount). Otherwise it commits, creating a
   * payout unless the booking already has one.
   */
  lemma SplitCommitsIff(db: Tables, bookingId: nat, paymentId: nat)
    requires RowsOk(db) && bookingId < |db.bookings| && paymentId < |db.payments|
    ensures SplitEscrow(db, bookingId, paymentId).Committed? <==> HostShare(db.bookings[bookingId].money) > 0
    ensures
      var t := SplitEscrow(db, bookingId, paymentId);
      t.Committed? ==> (t.value.Some? <==> forall q :: 0 <= q < |db.payouts| ==> db.payouts[q].bookingId != bookingId)
  {
    var b := db.bookings[bookingId];
    SplitPosts4(db.ledger, b.currency, b.money, bookingId, paymentId, |db.payouts|);
  }

  lemma PayoutAppendTotals(db: Tables, p: Payout, s: Scope)
    ensures
      var db' := db.(payouts := db.payouts + [p]);
      && UnpaidTotal(db', s) == UnpaidTotal(db, s) + UnpaidW(s)(p)
      && PaidTotal(db', s) == PaidTotal(db, s) + PaidW(s)(p)
      && forall part :: SettledTotal(db', s, part) == SettledTotal(db, s, part) + SettledW(db.bookings, s, part)(p)
  {
    SumAppend(db.payouts, p, UnpaidW(s));
    SumAppend(db.payouts, p, PaidW(s));
    forall part
      ensures SettledTotal(db.(payouts := db.payouts + [p]), s, part)
              == SettledTotal(db, s, part) + SettledW(db.bookings, s, part)(p)
    {
      SumAppend(db.payouts, p, SettledW(db.bookings, s, part));
    }
  }

  /** The split's legs and the new payout row move every measure alike. */
  lemma SplitMeasures(db: Tables, p: Payout, paymentId: nat, probe: Probe)
    requires RowsOk(db) && p.bookingId < |db.bookings| && p.status == PayoutStatus.Pending
    requires p.amount == HostShare(db.bookings[p.bookingId].money) > 0
    ensures
      var legs := SplitLegs(db.bookings[p.bookingId].money, p.bookingId, paymentId, |db.payouts|);
      var w := LegWeight(probe, p.currency);
      Closed(db.(payouts := db.payouts + [p]), probe) == Closed(db, probe) + w(legs[0]) + w(legs[1]) + w(legs[2]) + w(legs[3])
  {
    var m := db.bookings[p.bookingId].money;
    if probe.Balance? {
      PayoutAppendTotals(db, p, probe.scope);
      SplitBalance(m, p.currency, p.bookingId, paymentId, |db.payouts|, p, db.bookings, probe.account, probe.scope);
    } else {
      SplitIsExact(m);
    }
  }

  /** The split: escrow falls by the total; payable, revenue and tax rise by its parts. */
  lemma SplitReconciles(db: Tables, bookingId: nat, paymentId: nat)
    requires EscrowOk(db) && bookingId < |db.bookings| && paymentId < |db.payments|
    requires SplitEscrow(db, bookingId, paymentId).Committed?
    ensures EscrowOk(SplitEscrow(db, bookingId, paymentId).db)
    ensures db.ledger <= SplitEscrow(db, bookingId, paymentId).db.ledger
  {
    var b := db.bookings[bookingId];
    var m, n := b.money, |db.payouts|;
    if PayoutByBooking(db.payouts, bookingId).None? {
      SplitCommitsIff(db, bookingId, paymentId);
      var p := Payout(bookingId, PayoutStatus.Pending, HostShare(m), b.currency, db.payments[paymentId].provider, None);
      var db' := SplitEscrow(db, bookingId, paymentId).db;
      SplitPosts4(db.ledger, b.currency, m, bookingId, paymentId, n);
      assert db' == db.(payouts := db.payouts + [p], ledger := db'.ledger);
      SplitKeepsRows(db, p, db'.ledger);
      SplitReconciled(db, p, paymentId, db');
    }
  }

  lemma SplitReconciled(db: Tables, p: Payout, paymentId: nat, db': Tables)
    requires EscrowOk(db) && p.bookingId < |db.bookings| && p.status == PayoutStatus.Pending
    requires p.amount == HostShare(db.bookings[p.bookingId].money) > 0
    requires db' == db.(payouts := db.payouts + [p], ledger := db'.ledger)
    requires
      var legs := SplitLegs(db.bookings[p.bookingId].money, p.bookingId, paymentId, |db.payouts|);
      forall probe ::
        Measure(db'.ledger, probe) == Measure(db.ledger, probe)
          + LegWeight(probe, p.currency)(legs[0]) + LegWeight(probe, p.currency)(legs[1])
          + LegWeight(probe, p.currency)(legs[2]) + LegWeight(probe, p.currency)(legs[3])
    ensures Reconciled(db')
  {
    hide Closed, LegWeight, Measure;
    forall probe ensures Measure(db'.ledger, probe) == Closed(db', probe) {
      assert Measure(db.ledger, probe) == Closed(db, probe);
      SplitMeasures(db, p, paymentId, probe);
      ClosedIgnoresLedger(db.(payouts := db.payouts + [p]), db'.ledger, probe);
    }
  }

  /** The four legs, seen by one account in one scope, are that account's share of the new payout row. */
  lemma SplitBalance(
    m: Money, currency: string, bookingId: nat, paymentId: nat, n: nat, p: Payout,
    bookings: seq<Booking>, a: Account, s: Scope)
    requires MoneyChecks(m) && bookingId < |bookings| && bookings[bookingId].money == m
    requires p.bookingId == bookingId && p.currency == currency && p.status == PayoutStatus.Pending && p.amount == HostShare(m)
    ensures
      var legs := SplitLegs(m, bookingId, paymentId, n);
      var w := LegWeight(Balance(a, s), currency);
      w(legs[0]) + w(legs[1]) + w(legs[2]) + w(legs[3])
      == match a
         case PlatformEscrow => -SettledW(bookings, s, Whole)(p)
         case HostPayable => UnpaidW(s)(p)
         case PlatformRevenue => SettledW(bookings, s, PlatformPart)(p)
         case TaxPayable => SettledW(bookings, s, TaxPart)(p)
         case GuestRefundClearing => 0
         case ProviderClearing => PaidW(s)(p)
  {
  }

  lemma SplitKeepsRows(db: Tables, p: Payout, ledger': seq<Entry>)
    requires RowsOk(db) && KeysUnique(db) && GroupsAreOld(ledger')
    requires p.bookingId < |db.bookings| && p.currency == db.bookings[p.bookingId].currency
    requires 0 < p.amount == HostShare(db.bookings[p.bookingId].money)
    requires forall q :: 0 <= q < |db.payouts| ==> db.payouts[q].bookingId != p.bookingId
    ensures
      var db' := db.(payouts := db.payouts + [p], ledger := ledger');
      RowsOk(db') && KeysUnique(db')
  {
    var db' := db.(payouts := db.payouts + [p], ledger := ledger');
    assert forall i :: 0 <= i < |db.payments| ==> PaymentOk(db, i) ==> PaymentOk(db', i);
    assert forall j :: 0 <= j < |db.refunds| ==> RefundOk(db, j) ==> RefundOk(db', j);
    forall q | 0 <= q < |db'.payouts| ensures PayoutOk(db', q) {
      assert q < |db.payouts| ==> PayoutOk(db, q);
    }
  }

  lemma PayoutRowKeepsRows(db: Tables, q: nat, p: Payout, ledger': seq<Entry>)
    requires RowsOk(db) && KeysUnique(db) && q < |db.payouts| && GroupsAreOld(ledger')
    requires p == db.payouts[q].(status := p.status, provider := p.provider, transfer := p.transfer)
    ensures
      var db' := db.(payouts := db.payouts[q := p], ledger := ledger');
      RowsOk(db') && KeysUnique(db')
  {
    var db' := db.(payouts := db.payouts[q := p], ledger := ledger');
    assert forall i :: 0 <= i < |db.payments| ==> PaymentOk(db, i) ==> PaymentOk(db', i);
    assert forall j :: 0 <= j < |db.refunds| ==> RefundOk(db, j) ==> RefundOk(db', j);
    forall k | 0 <= k < |db'.payouts| ensures PayoutOk(db', k) {
      assert PayoutOk(db, k);
    }
  }

  /** A payout status change that neither reaches nor leaves PAID moves no money. */
  lemma MovePayoutReconciles(db: Tables, q: nat, p: Payout)
    requires EscrowOk(db) && q < |db.payouts|
    requires p == db.payouts[q].(status := p.status, provider := p.provider, transfer := p.transfer)
    requires db.payouts[q].status != PayoutStatus.Paid && p.status != PayoutStatus.Paid
    ensures EscrowOk(db.(payouts := db.payouts[q := p]))
  {
    var db' := db.(payouts := db.payouts[q := p]);
    forall probe ensures Measure(db'.ledger, probe) == Closed(db', probe) {
      assert Measure(db.ledger, probe) == Closed(db, probe);
      if probe.Balance? {
        PayoutTotals(db, q, p, probe.scope);
      }
    }
    PayoutRowKeepsRows(db, q, p, db.ledger);
  }

  /** Settlement: PAID and the payable-to-clearing pair, atomically. */
  lemma SettleReconciles(db: Tables, q: nat)
    requires EscrowOk(db) && SettlePayout(db, q).Committed?
    ensures EscrowOk(SettlePayout(db, q).db)
    ensures db.ledger <= SettlePayout(db, q).db.ledger
  {
    if MarkPaid(db, q).Wrote? {
      var p := db.payouts[q];
      var p' := p.(status := PayoutStatus.Paid);
      var legs := SettleLegs(p, q);
      assert PayoutOk(db, q);
      PairPosts(db.ledger, p.currency, legs[0], legs[1]);
      assert legs == [legs[0], legs[1]];
      var db' := SettlePayout(db, q).db;
      assert db' == db.(payouts := db.payouts[q := p'], ledger := db'.ledger);
      forall probe ensures Measure(db'.ledger, probe) == Closed(db', probe) {
        assert Measure(db.ledger, probe) == Closed(db, probe);
        if probe.Balance? {
          PayoutTotals(db, q, p', probe.scope);
        }
      }
      PayoutRowKeepsRows(db, q, p', db'.ledger);
    }
  }

  // ---- manual adjustments ----

  /** The row facts do not depend on blocks, adjustments or the ledger's content. */
  lemma SameRowsOk(db: Tables, db': Tables)
    requires RowsOk(db) && KeysUnique(db) && GroupsAreOld(db'.ledger)
    requires db' == db.(blocks := db'.blocks, ledger := db'.ledger, adjustments := db'.adjustments)
    ensures RowsOk(db') && KeysUnique(db')
  {
    forall i | 0 <= i < |db'.payments| ensures PaymentOk(db', i) {
      assert PaymentOk(db, i);
    }
    forall j | 0 <= j < |db'.refunds| ensures RefundOk(db', j) {
      assert RefundOk(db, j);
    }
    forall q | 0 <= q < |db'.payouts| ensures PayoutOk(db', q) {
      assert PayoutOk(db, q);
    }
  }

  lemma AdjustmentTotals(db: Tables, a: Adjustment, ledger': seq<Entry>, probe: Probe)
    ensures
      Closed(db.(adjustments := db.adjustments + [a], ledger := ledger'), probe)
      == Closed(db, probe) + if probe.Balance? then AdjustedW(probe.account, probe.scope)(a) else 0
  {
    if probe.Balance? {
      SumAppend(db.adjustments, a, AdjustedW(probe.account, probe.scope));
    }
  }

  /** A manual adjustment moves exactly its amount between its two accounts, and nothing else. */
  lemma AdjustReconciles(db: Tables, a: Adjustment)
    requires EscrowOk(db) && Adjust(db, a).Committed?
    ensures EscrowOk(Adjust(db, a).db)
    ensures db.ledger <= Adjust(db, a).db.ledger
  {
    var legs := AdjustLegs(a);
    PairPosts(db.ledger, a.currency, legs[0], legs[1]);
    assert legs == [legs[0], legs[1]];
    var db' := Adjust(db, a).db;
    hide RowsOk, KeysUnique, Closed, Measure;
    assert db' == db.(adjustments := db.adjustments + [a], ledger := db'.ledger);
    forall probe ensures Measure(db'.ledger, probe) == Closed(db', probe) {
      assert Measure(db.ledger, probe) == Closed(db, probe);
      AdjustmentTotals(db, a, db'.ledger, probe);
    }
    SameRowsOk(db, db');
  }

  // ---- the inbox ----

  lemma EventsReconcile(db: Tables, events': seq<Event>)
    requires EscrowOk(db)
    requires forall i, j :: 0 <= i < j < |events'| ==>
      events'[i].provider != events'[j].provider || events'[i].eventId != events'[j].eventId
    ensures EscrowOk(db.(events := events'))
  {
    var db' := db.(events := events');
    forall probe ensures Measure(db'.ledger, probe) == Closed(db', probe) {
      assert Measure(db.ledger, probe) == Closed(db, probe);
    }
    assert forall i :: 0 <= i < |db.payments| ==> PaymentOk(db, i) ==> PaymentOk(db', i);
    assert forall j :: 0 <= j < |db.refunds| ==> RefundOk(db, j) ==> RefundOk(db', j);
    assert forall q :: 0 <= q < |db.payouts| ==> PayoutOk(db, q) ==> PayoutOk(db', q);
  }
}
