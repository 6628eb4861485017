/**
 * Each transaction of the payment module, column by column: when it commits, which
 * rows it leaves, and which entries it adds to the ledger.
 */
module EscrowTransactions {
  import opened Common
  import opened Pricing
  import opened Bookings
  import opened Ledger
  import opened EscrowTables
  import opened EscrowInvariant

  // ---- groups of entries ----

  /** An entry that is written only for a positive amount. */
  function IfPositive(e: Entry): seq<Entry> {
    if e.leg.amount > 0 then [e] else []
  }

  /** One more leg is one more entry, if its amount is positive. */
  lemma OneMoreEntry(g: nat, currency: string, legs: seq<Leg>, leg: Leg)
    ensures Rows(g, currency, Positive(legs + [leg])) == Rows(g, currency, Positive(legs)) + IfPositive(Entry(g, currency, leg))
  {
    assert (legs + [leg])[..|legs|] == legs;
  }

  lemma NoEntry(g: nat, currency: string)
    ensures Rows(g, currency, Positive([])) == []
  {
  }

  lemma TwoEntries(g: nat, currency: string, a: Leg, b: Leg)
    requires a.amount > 0 && b.amount > 0
    ensures Rows(g, currency, Positive([a, b])) == [Entry(g, currency, a), Entry(g, currency, b)]
  {
    hide Positive, Rows;
    NoEntry(g, currency);
    OneMoreEntry(g, currency, [], a);
    OneMoreEntry(g, currency, [a], b);
    assert [] + [a] == [a] && [a] + [b] == [a, b];
  }

  lemma FourEntries(g: nat, currency: string, a: Leg, b: Leg, c: Leg, d: Leg)
    requires a.amount > 0 && b.amount > 0
    ensures Rows(g, currency, Positive([a, b, c, d]))
            == [Entry(g, currency, a), Entry(g, currency, b)] + IfPositive(Entry(g, currency, c)) + IfPositive(Entry(g, currency, d))
  {
    hide Positive, Rows, IfPositive;
    TwoEntries(g, currency, a, b);
    OneMoreEntry(g, currency, [a, b], c);
    OneMoreEntry(g, currency, [a, b, c], d);
    assert [a, b] + [c] == [a, b, c] && [a, b, c] + [d] == [a, b, c, d];
  }

  /** A balanced pair of positive legs is posted as it is, under a new group id. */
  lemma PairRows(ledger: seq<Entry>, currency: string, debit: Leg, credit: Leg)
    requires GroupsAreOld(ledger)
    requires debit.direction == Debit && credit.direction == Credit && debit.amount == credit.amount > 0
    ensures PostGroup(ledger, currency, [debit, credit])
            == Success(ledger + [Entry(|ledger|, currency, debit), Entry(|ledger|, currency, credit)])
  {
    PairPosts(ledger, currency, debit, credit);
    TwoEntries(|ledger|, currency, debit, credit);
  }

  /** Four legs, the last two of which may be zero, are posted without the zero ones. */
  lemma FourRows(ledger: seq<Entry>, currency: string, a: Leg, b: Leg, c: Leg, d: Leg)
    requires GroupsAreOld(ledger)
    requires a.direction == Debit && b.direction == c.direction == d.direction == Credit
    requires a.amount > 0 && b.amount > 0 && c.amount >= 0 && d.amount >= 0 && a.amount == b.amount + c.amount + d.amount
    ensures PostGroup(ledger, currency, [a, b, c, d])
            == Success(ledger + ([Entry(|ledger|, currency, a), Entry(|ledger|, currency, b)]
                                 + IfPositive(Entry(|ledger|, currency, c)) + IfPositive(Entry(|ledger|, currency, d))))
  {
    var legs := [a, b, c, d];
    SumFour(a, b, c, d, DebitW());
    SumFour(a, b, c, d, CreditW());
    NonNegativeLegsCommitIff(ledger, currency, legs);
    FourEntries(|ledger|, currency, a, b, c, d);
    hide Positive, Rows, IfPositive;
  }

  // ---- the transactions ----

  /** The payment that an event names: the provider's, with the event's intent. */
  predicate Names(e: Event, p: Payment) {
    e.intent.Some? && p.provider == e.provider && p.intent == e.intent
  }

  lemma NamedIsFound(db: Tables, e: Event, i: nat)
    requires KeysUnique(db) && i < |db.payments| && Names(e, db.payments[i])
    ensures PaymentByIntent(db.payments, e.provider, e.intent.value) == Some(i)
  {
  }

  /** An event that names no payment moves nothing, and is an error unless it is a failure. */
  lemma UnknownPayment(db: Tables, e: Event)
    requires forall i :: 0 <= i < |db.payments| ==> !Names(e, db.payments[i])
    ensures ApplyCapture(db, e).RolledBack? && ApplyRefund(db, e).RolledBack?
    ensures ApplyFailure(db, e) == if e.intent.Some? then Committed(db, ()) else RolledBack
  {
  }

  /** The capture of a known payment. */
  lemma CaptureByColumns(db: Tables, e: Event, i: nat)
    requires RowsOk(db) && KeysUnique(db) && i < |db.payments| && Names(e, db.payments[i])
    ensures
      var p, g := db.payments[i], |db.ledger|;
      ApplyCapture(db, e) ==
        if e.amount.Some? && e.amount.value != p.amount then RolledBack
        else if p.status in {PaymentStatus.Initiated, PaymentStatus.RequiresAction, PaymentStatus.Authorized} then
          Committed(db.(
            payments := db.payments[i := p.(status := PaymentStatus.Captured)],
            ledger := db.ledger + [
              Entry(g, p.currency, Leg(ProviderClearing, Debit, p.amount, Some(p.bookingId), Some(i), None)),
              Entry(g, p.currency, Leg(PlatformEscrow, Credit, p.amount, Some(p.bookingId), Some(i), None))]),
            p.bookingId)
        else Committed(db, p.bookingId)
  {
    NamedIsFound(db, e, i);
    var p := db.payments[i];
    assert PaymentOk(db, i);
    PairRows(db.ledger, p.currency,
      Leg(ProviderClearing, Debit, p.amount, Some(p.bookingId), Some(i), None),
      Leg(PlatformEscrow, Credit, p.amount, Some(p.bookingId), Some(i), None));
  }

  lemma FailureByColumns(db: Tables, e: Event, i: nat)
    requires KeysUnique(db) && i < |db.payments| && Names(e, db.payments[i])
    ensures
      var p := db.payments[i];
      ApplyFailure(db, e) ==
        Committed(
          if p.status in {PaymentStatus.Initiated, PaymentStatus.RequiresAction, PaymentStatus.Authorized}
          then db.(payments := db.payments[i := p.(status := PaymentStatus.Failed)]) else db, ())
  {
    NamedIsFound(db, e, i);
  }

  /** The refund of a known payment, by the pending row that carries the event's reference. */
  lemma RefundByColumns(db: Tables, e: Event, i: nat, r: nat)
    requires RowsOk(db) && KeysUnique(db) && i < |db.payments| && Names(e, db.payments[i])
    requires e.refundRef.Some? && r < |db.refunds|
    requires db.refunds[r].paymentId == i && db.refunds[r].providerRef == e.refundRef && db.refunds[r].status == RefundStatus.Pending
    ensures
      var p, amount, g := db.payments[i], db.refunds[r].amount, |db.ledger|;
      ApplyRefund(db, e) ==
        if p.refunded + amount > p.amount then RolledBack
        else
          Committed(db.(
            refunds := db.refunds[r := db.refunds[r].(status := RefundStatus.Succeeded)],
            payments := db.payments[i := p.(
              refunded := p.refunded + amount,
              status := if p.refunded + amount == p.amount then PaymentStatus.Refunded else PaymentStatus.PartiallyRefunded)],
            ledger := db.ledger + [
              Entry(g, p.currency, Leg(PlatformEscrow, Debit, amount, Some(p.bookingId), Some(i), None)),
              Entry(g, p.currency, Leg(GuestRefundClearing, Credit, amount, Some(p.bookingId), Some(i), None))]),
            p.bookingId)
  {
    NamedIsFound(db, e, i);
    var p, amount := db.payments[i], db.refunds[r].amount;
    assert RefundOk(db, r);
    assert PendingRefund(db.refunds, i, e.refundRef.value) == Some(r) by {
      assert Awaits(db.refunds[r], i, e.refundRef.value);
    }
    PairRows(db.ledger, p.currency,
      Leg(PlatformEscrow, Debit, amount, Some(p.bookingId), Some(i), None),
      Leg(GuestRefundClearing, Credit, amount, Some(p.bookingId), Some(i), None));
  }

  /** Without such a row the refund moves nothing; without a reference on the event it is an error. */
  lemma RefundOfNothing(db: Tables, e: Event, i: nat)
    requires KeysUnique(db) && i < |db.payments| && Names(e, db.payments[i])
    requires forall r :: 0 <= r < |db.refunds| && db.refunds[r].paymentId == i && db.refunds[r].status == RefundStatus.Pending ==>
      e.refundRef.None? || db.refunds[r].providerRef != e.refundRef
    ensures ApplyRefund(db, e) == if e.refundRef.None? then RolledBack else Committed(db, db.payments[i].bookingId)
  {
    NamedIsFound(db, e, i);
  }

  lemma SplitGroup(ledger: seq<Entry>, currency: string, m: Money, b: nat, p: nat, q: nat)
    requires GroupsAreOld(ledger) && MoneyChecks(m) && m.hostPayout + m.cleaning > 0
    ensures
      var g := |ledger|;
      PostGroup(ledger, currency, SplitLegs(m, b, p, q)) == Success(ledger + ([
        Entry(g, currency, Leg(PlatformEscrow, Debit, m.total, Some(b), Some(p), None)),
        Entry(g, currency, Leg(HostPayable, Credit, m.hostPayout + m.cleaning, Some(b), None, Some(q)))]
        + IfPositive(Entry(g, currency, Leg(PlatformRevenue, Credit, m.commission + m.service, Some(b), None, None)))
        + IfPositive(Entry(g, currency, Leg(TaxPayable, Credit, m.taxes, Some(b), None, None)))))
  {
    FourRows(ledger, currency,
      Leg(PlatformEscrow, Debit, m.total, Some(b), Some(p), None),
      Leg(HostPayable, Credit, m.hostPayout + m.cleaning, Some(b), None, Some(q)),
      Leg(PlatformRevenue, Credit, m.commission + m.service, Some(b), None, None),
      Leg(TaxPayable, Credit, m.taxes, Some(b), None, None));
    hide PostGroup, IfPositive;
  }

  /**
   * The split: the host is owed the host payout and the cleaning fee, the platform
   * earns commission and service fee, the rest of the total is tax.
   */
  lemma SplitByColumns(db: Tables, b: nat, p: nat)
    requires RowsOk(db) && b < |db.bookings| && p < |db.payments|
    ensures
      var row, m, q, g := db.bookings[b], db.bookings[b].money, |db.payouts|, |db.ledger|;
      SplitEscrow(db, b, p) ==
        if m.hostPayout + m.cleaning == 0 then RolledBack
        else if exists k :: 0 <= k < |db.payouts| && db.payouts[k].bookingId == b then Committed(db, None)
        else
          Committed(db.(
            payouts := db.payouts
                       + [Payout(b, PayoutStatus.Pending, m.hostPayout + m.cleaning, row.currency, db.payments[p].provider, None)],
            ledger := db.ledger + ([
              Entry(g, row.currency, Leg(PlatformEscrow, Debit, m.total, Some(b), Some(p), None)),
              Entry(g, row.currency, Leg(HostPayable, Credit, m.hostPayout + m.cleaning, Some(b), None, Some(q)))]
              + IfPositive(Entry(g, row.currency, Leg(PlatformRevenue, Credit, m.commission + m.service, Some(b), None, None)))
              + IfPositive(Entry(g, row.currency, Leg(TaxPayable, Credit, m.taxes, Some(b), None, None))))),
            Some(q))
  {
    var row, m := db.bookings[b], db.bookings[b].money;
    assert MoneyChecks(m);
    if m.hostPayout + m.cleaning > 0 {
      SplitGroup(db.ledger, row.currency, m, b, p, |db.payouts|);
    }
    hide PostGroup, SplitLegs, IfPositive;
  }

  /** The settlement of a payout in transit; any other is left alone. It never fails. */
  lemma SettleByColumns(db: Tables, q: nat)
    requires RowsOk(db)
    ensures
      var g := |db.ledger|;
      SettlePayout(db, q) ==
        if q < |db.payouts| && db.payouts[q].status == PayoutStatus.InTransit then
          var row := db.payouts[q];
          Committed(db.(
            payouts := db.payouts[q := row.(status := PayoutStatus.Paid)],
            ledger := db.ledger + [
              Entry(g, row.currency, Leg(HostPayable, Debit, row.amount, Some(row.bookingId), None, Some(q))),
              Entry(g, row.currency, Leg(ProviderClearing, Credit, row.amount, Some(row.bookingId), None, Some(q)))]),
            true)
        else Committed(db, false)
  {
    if q < |db.payouts| {
      var row := db.payouts[q];
      assert PayoutOk(db, q);
      PairRows(db.ledger, row.currency,
        Leg(HostPayable, Debit, row.amount, Some(row.bookingId), None, Some(q)),
        Leg(ProviderClearing, Credit, row.amount, Some(row.bookingId), None, Some(q)));
    }
  }

  /** A manual adjustment: between two accounts, of a positive amount, in a three-letter currency; and then it never fails. */
  lemma AdjustByColumns(db: Tables, a: Adjustment)
    requires RowsOk(db)
    ensures
      var g := |db.ledger|;
      Adjust(db, a) ==
        if a.from != a.to && a.amount > 0 && |a.currency| == 3 && (forall k :: 0 <= k < 3 ==> 'A' <= a.currency[k] <= 'Z') then
          Committed(db.(
            adjustments := db.adjustments + [a],
            ledger := db.ledger + [
              Entry(g, a.currency, Leg(a.from, Debit, a.amount, a.bookingId, None, None)),
              Entry(g, a.currency, Leg(a.to, Credit, a.amount, a.bookingId, None, None))]),
            ())
        else RolledBack
  {
    if AdjustmentValid(a) {
      PairRows(db.ledger, a.currency,
        Leg(a.from, Debit, a.amount, a.bookingId, None, None),
        Leg(a.to, Credit, a.amount, a.bookingId, None, None));
    }
  }
}
