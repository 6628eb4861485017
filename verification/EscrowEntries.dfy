/**
 * What stands in the ledger, entry by entry, in every state of every run: the group of
 * each captured payment, succeeded refund, payout and settlement, in the columns of
 * their rows; and what a payout pays the host.
 */
module EscrowEntries {
  import opened Common
  import opened BookingFsm
  import opened Pricing
  import opened Bookings
  import opened Ledger
  import opened EscrowTables
  import opened EscrowInvariant
  import opened EscrowProtocol
  import opened EscrowSafety
  import opened EscrowTheorems
  import opened EscrowTransactions
  import opened EscrowJournal

  /** The capture of a payment stands as one pair of entries, and nothing else is under its group id. */
  lemma CaptureStands(fsm: set<Edge>, trace: seq<State>, i: nat, p: nat) returns (g: nat)
    requires Run(fsm, trace) && i < |trace| && p < |trace[i].db.payments|
    requires trace[i].db.payments[p].status in {PaymentStatus.Captured, PaymentStatus.PartiallyRefunded, PaymentStatus.Refunded}
    ensures
      var row := trace[i].db.payments[p];
      Under(trace[i].db.ledger, g) == [
        Entry(g, row.currency, Leg(ProviderClearing, Debit, row.amount, Some(row.bookingId), Some(p), None)),
        Entry(g, row.currency, Leg(PlatformEscrow, Credit, row.amount, Some(row.bookingId), Some(p), None))]
  {
    var db := trace[i].db;
    RunRows(fsm, trace, i);
    assert PaymentOk(db, p);
    hide Run, Under, RowsOk;
    var posted: Cause;
    posted, g := PostedAsOneGroup(fsm, trace, i, CaptureOf(p));
    var legs := CaptureLegs(db.payments[p], p);
    TwoEntries(g, db.payments[p].currency, legs[0], legs[1]);
    assert legs == [legs[0], legs[1]];
  }

  lemma RunRows(fsm: set<Edge>, trace: seq<State>, i: nat)
    requires Run(fsm, trace) && i < |trace|
    ensures RowsOk(trace[i].db)
  {
    RunInv(fsm, trace, i);
  }

  lemma RefundStands(fsm: set<Edge>, trace: seq<State>, i: nat, r: nat) returns (g: nat)
    requires Run(fsm, trace) && i < |trace| && r < |trace[i].db.refunds|
    requires trace[i].db.refunds[r].status == RefundStatus.Succeeded
    ensures
      var p, amount := trace[i].db.refunds[r].paymentId, trace[i].db.refunds[r].amount;
      && p < |trace[i].db.payments|
      && var row := trace[i].db.payments[p];
         Under(trace[i].db.ledger, g) == [
           Entry(g, row.currency, Leg(PlatformEscrow, Debit, amount, Some(row.bookingId), Some(p), None)),
           Entry(g, row.currency, Leg(GuestRefundClearing, Credit, amount, Some(row.bookingId), Some(p), None))]
  {
    var db := trace[i].db;
    RunRows(fsm, trace, i);
    assert RefundOk(db, r);
    hide Run, Under, RowsOk;
    var posted: Cause;
    posted, g := PostedAsOneGroup(fsm, trace, i, RefundOf(r));
    var p := db.refunds[r].paymentId;
    var legs := RefundLegs(db.payments[p], p, db.refunds[r].amount);
    TwoEntries(g, db.payments[p].currency, legs[0], legs[1]);
    assert legs == [legs[0], legs[1]];
  }

  lemma SettlementStands(fsm: set<Edge>, trace: seq<State>, i: nat, q: nat) returns (g: nat)
    requires Run(fsm, trace) && i < |trace| && q < |trace[i].db.payouts| && trace[i].db.payouts[q].status == PayoutStatus.Paid
    ensures
      var row := trace[i].db.payouts[q];
      Under(trace[i].db.ledger, g) == [
        Entry(g, row.currency, Leg(HostPayable, Debit, row.amount, Some(row.bookingId), None, Some(q))),
        Entry(g, row.currency, Leg(ProviderClearing, Credit, row.amount, Some(row.bookingId), None, Some(q)))]
  {
    var db := trace[i].db;
    RunRows(fsm, trace, i);
    assert PayoutOk(db, q);
    hide Run, Under, RowsOk;
    var posted: Cause;
    posted, g := PostedAsOneGroup(fsm, trace, i, SettleOf(q));
    var legs := SettleLegs(db.payouts[q], q);
    TwoEntries(g, db.payouts[q].currency, legs[0], legs[1]);
    assert legs == [legs[0], legs[1]];
  }

  /** Every payout, in every reachable state, pays the host the host payout and the cleaning fee of its booking. */
  lemma PayoutPaysTheHost(fsm: set<Edge>, trace: seq<State>, i: nat, q: nat)
    requires Run(fsm, trace) && i < |trace| && q < |trace[i].db.payouts|
    ensures
      var db, b := trace[i].db, trace[i].db.payouts[q].bookingId;
      && b < |db.bookings| && db.payouts[q].currency == db.bookings[b].currency
      && db.payouts[q].amount == db.bookings[b].money.hostPayout + db.bookings[b].money.cleaning > 0
  {
    RunRows(fsm, trace, i);
    assert PayoutOk(trace[i].db, q);
  }

  /** If the booking's money is a quote, that is the net base without the commission, to within half a minor unit. */
  lemma QuotedPayout(
    fsm: set<Edge>, trace: seq<State>, i: nat, q: nat,
    unit: BookableUnit, settings: Settings, kind: BookingType, checkIn: int, checkOut: int, discountPct: int)
    requires Run(fsm, trace) && i < |trace| && q < |trace[i].db.payouts|
    ensures
      var db, b := trace[i].db, trace[i].db.payouts[q].bookingId;
      && b < |db.bookings|
      && var m := db.bookings[b].money;
         Quote(unit, settings, kind, checkIn, checkOut, discountPct) == Success(m) ==>
           -5_000 <= 10_000 * db.payouts[q].amount - (m.base - m.discount) * (10_000 - m.commissionPct) <= 5_000
  {
    hide Quote;
    PayoutPaysTheHost(fsm, trace, i, q);
    QuoteByRate(unit, settings, kind, checkIn, checkOut, discountPct);
    var db := trace[i].db;
    var m := db.bookings[db.payouts[q].bookingId].money;
    hide Run;
    assert (m.base - m.discount) * (10_000 - m.commissionPct)
        == 10_000 * (m.base - m.discount) - (m.base - m.discount) * m.commissionPct;
  }

  /** The split of a payout stands as one group: the total out of escrow; to the host, the platform and the tax office their parts. */
  lemma SplitStands(fsm: set<Edge>, trace: seq<State>, i: nat, q: nat) returns (p: nat, g: nat)
    requires Run(fsm, trace) && i < |trace| && q < |trace[i].db.payouts|
    ensures
      var db, b := trace[i].db, trace[i].db.payouts[q].bookingId;
      && b < |db.bookings| && p < |db.payments| && db.payments[p].bookingId == b
      && db.payments[p].status in {PaymentStatus.Captured, PaymentStatus.PartiallyRefunded, PaymentStatus.Refunded}
      && var m, currency := db.bookings[b].money, db.bookings[b].currency;
         Under(db.ledger, g) == [
           Entry(g, currency, Leg(PlatformEscrow, Debit, m.total, Some(b), Some(p), None)),
           Entry(g, currency, Leg(HostPayable, Credit, m.hostPayout + m.cleaning, Some(b), None, Some(q)))]
           + IfPositive(Entry(g, currency, Leg(PlatformRevenue, Credit, m.commission + m.service, Some(b), None, None)))
           + IfPositive(Entry(g, currency, Leg(TaxPayable, Credit, m.taxes, Some(b), None, None)))
  {
    var db := trace[i].db;
    RunRows(fsm, trace, i);
    assert PayoutOk(db, q);
    var b := db.payouts[q].bookingId;
    assert MoneyChecks(db.bookings[b].money);
    hide Run, Under, RowsOk;
    var posted: Cause;
    posted, g := PostedAsOneGroup(fsm, trace, i, SplitOf(q, 0));
    p := posted.funds;
    var legs := SplitLegs(db.bookings[b].money, b, p, q);
    FourEntries(g, db.bookings[b].currency, legs[0], legs[1], legs[2], legs[3]);
    assert legs == [legs[0], legs[1], legs[2], legs[3]];
  }
}
