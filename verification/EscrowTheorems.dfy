/**
 * What holds in every state of every run of the escrow machine, under any
 * interleaving of its steps, crashes and duplicated jobs, and under every status
 * whitelist except where a theorem names what it needs of one.
 */
module EscrowTheorems {
  import opened Common
  import opened BookingFsm
  import opened Bookings
  import opened Ledger
  import opened EscrowTables
  import opened EscrowInvariant
  import opened EscrowProtocol
  import opened EscrowSafety

  // ---- runs ----

  /** The step that led into a state of a run. */
  lemma StepInto(fsm: set<Edge>, trace: seq<State>, j: nat) returns (step: Step)
    requires Run(fsm, trace) && 0 < j < |trace|
    ensures Next(fsm, trace[j - 1], step) == Some(trace[j])
  {
    hide Next;
    assert Follows(fsm, trace[j - 1], trace[j]);
    step :| Next(fsm, trace[j - 1], step) == Some(trace[j]);
  }

  lemma InitInv(fsm: set<Edge>, now: int)
    ensures Inv(fsm, Init(now))
  {
    EmptyIsOk();
  }

  lemma {:induction false} RunInv(fsm: set<Edge>, trace: seq<State>, i: nat)
    requires Run(fsm, trace) && i < |trace|
    ensures Inv(fsm, trace[i])
    decreases i
  {
    hide Inv;
    if i == 0 {
      InitInv(fsm, trace[0].now);
    } else {
      RunInv(fsm, trace, i - 1);
      StepGood(fsm, trace, i - 1);
    }
  }

  lemma StepGood(fsm: set<Edge>, trace: seq<State>, i: nat)
    requires Run(fsm, trace) && i < |trace| - 1
    requires Inv(fsm, trace[i])
    ensures Inv(fsm, trace[i + 1]) && Later(fsm, trace[i].db, trace[i].now, trace[i + 1].db, trace[i + 1].now)
  {
    hide Inv, Later, Next, Run;
    var step := StepInto(fsm, trace, i + 1);
    EveryStep(fsm, trace[i], step);
  }

  /** Between any two states of a run the tables only move forward. */
  lemma {:induction false} RunForward(fsm: set<Edge>, trace: seq<State>, i: nat, j: nat)
    requires Run(fsm, trace) && i <= j < |trace|
    ensures Later(fsm, trace[i].db, trace[i].now, trace[j].db, trace[j].now)
    decreases j
  {
    hide Inv, Later, Run;
    if i == j {
      LaterReflexive(fsm, trace[i].db, trace[i].now, trace[i].now);
    } else {
      RunForward(fsm, trace, i, j - 1);
      RunInv(fsm, trace, j - 1);
      StepGood(fsm, trace, j - 1);
      LaterTransitive(fsm, trace[i].db, trace[i].now, trace[j - 1].db, trace[j - 1].now, trace[j].db, trace[j].now);
    }
  }

  // ---- reconciliation ----

  /** The credit-minus-debit balance of an account, as `accountBalance` computes it, over a scope. */
  function BalanceOf(s: State, a: Account, scope: Scope): int {
    Measure(s.db.ledger, Balance(a, scope))
  }

  /**
   * In every reachable state, for every currency and for every booking, each of the
   * six account balances is the closed form of the rows plus the net of the manual
   * adjustments.
   */
  lemma SixBalances(fsm: set<Edge>, trace: seq<State>, i: nat, scope: Scope)
    requires Run(fsm, trace) && i < |trace|
    ensures
      var s := trace[i];
      var db := s.db;
      && BalanceOf(s, PlatformEscrow, scope)
         == CapturedTotal(db, scope) - RefundedTotal(db, scope) - SettledTotal(db, scope, Whole) + AdjustedTotal(db, PlatformEscrow, scope)
      && BalanceOf(s, HostPayable, scope) == UnpaidTotal(db, scope) + AdjustedTotal(db, HostPayable, scope)
      && BalanceOf(s, PlatformRevenue, scope) == SettledTotal(db, scope, PlatformPart) + AdjustedTotal(db, PlatformRevenue, scope)
      && BalanceOf(s, TaxPayable, scope) == SettledTotal(db, scope, TaxPart) + AdjustedTotal(db, TaxPayable, scope)
      && BalanceOf(s, GuestRefundClearing, scope) == RefundedTotal(db, scope) + AdjustedTotal(db, GuestRefundClearing, scope)
      && BalanceOf(s, ProviderClearing, scope)
         == PaidTotal(db, scope) - CapturedTotal(db, scope) + AdjustedTotal(db, ProviderClearing, scope)
  {
    RunInv(fsm, trace, i);
    var db := trace[i].db;
    forall a ensures BalanceOf(trace[i], a, scope) == RowBalance(db, a, scope) + AdjustedTotal(db, a, scope) {
      assert Measure(db.ledger, Balance(a, scope)) == Closed(db, Balance(a, scope));
    }
  }

  function DebitIn(currency: string): Entry -> int {
    (e: Entry) => if e.currency == currency then DebitOf(e.leg) else 0
  }

  function CreditIn(currency: string): Entry -> int {
    (e: Entry) => if e.currency == currency then CreditOf(e.leg) else 0
  }

  lemma {:induction false} TrialIsCreditsMinusDebits(ledger: seq<Entry>, currency: string)
    ensures Measure(ledger, Trial(currency)) == Sum(ledger, CreditIn(currency)) - Sum(ledger, DebitIn(currency))
    decreases |ledger|
  {
    if |ledger| > 0 {
      TrialIsCreditsMinusDebits(ledger[..|ledger| - 1], currency);
    }
  }

  /** Total debits equal total credits, per currency, in every reachable state; and the ledger only grows. */
  lemma TrialBalance(fsm: set<Edge>, trace: seq<State>, i: nat, j: nat, currency: string)
    requires Run(fsm, trace) && i <= j < |trace|
    ensures Sum(trace[i].db.ledger, DebitIn(currency)) == Sum(trace[i].db.ledger, CreditIn(currency))
    ensures trace[i].db.ledger <= trace[j].db.ledger
  {
    RunInv(fsm, trace, i);
    TrialIsCreditsMinusDebits(trace[i].db.ledger, currency);
    assert Measure(trace[i].db.ledger, Trial(currency)) == Closed(trace[i].db, Trial(currency));
    RunForward(fsm, trace, i, j);
  }

  // ---- exactly once ----

  /**
   * One capture group per captured payment and none for any other; one split per
   * payout; one settlement per PAID payout and none for any other.
   */
  lemma PostedExactlyOnce(fsm: set<Edge>, trace: seq<State>, i: nat, row: nat)
    requires Run(fsm, trace) && i < |trace|
    ensures
      var db := trace[i].db;
      && Measure(db.ledger, CapturePosts(row)) == (if row < |db.payments| && IsCaptured(db.payments[row].status) then 1 else 0)
      && Measure(db.ledger, SplitPosts(row)) == (if row < |db.payouts| then 1 else 0)
      && Measure(db.ledger, SettlePosts(row)) == (if row < |db.payouts| && db.payouts[row].status == PayoutStatus.Paid then 1 else 0)
  {
    RunInv(fsm, trace, i);
    var db := trace[i].db;
    forall probe ensures Measure(db.ledger, probe) == Closed(db, probe) {
    }
  }

  /**
   * A payment's refund counter is the sum of its succeeded refunds and of its refund
   * credits; its status is REFUNDED exactly when that sum is the whole amount; and
   * the sum never exceeds the amount.
   */
  lemma RefundAccounting(fsm: set<Edge>, trace: seq<State>, i: nat, p: nat)
    requires Run(fsm, trace) && i < |trace| && p < |trace[i].db.payments|
    ensures
      var db := trace[i].db;
      var row := db.payments[p];
      && row.refunded == Sum(db.refunds, SucceededW(p)) == Measure(db.ledger, RefundCredits(p))
      && 0 <= row.refunded <= row.amount
      && (row.status == PaymentStatus.Refunded <==> row.refunded == row.amount)
      && (row.status == PaymentStatus.PartiallyRefunded <==> 0 < row.refunded < row.amount)
  {
    RunInv(fsm, trace, i);
    var db := trace[i].db;
    assert PaymentOk(db, p);
    assert Measure(db.ledger, RefundCredits(p)) == Closed(db, RefundCredits(p));
  }

  /**
   * The unique keys: one payment per idempotency key and per provider intent, one refund of a payment
   * per provider reference, one payout per booking, one record per provider event.
   */
  lemma KeysStayUnique(fsm: set<Edge>, trace: seq<State>, i: nat)
    requires Run(fsm, trace) && i < |trace|
    ensures KeysUnique(trace[i].db)
  {
    RunInv(fsm, trace, i);
  }

  // ---- who owns the money in escrow ----

  /** A stay is refunded or paid out, never both. */
  lemma RefundOrPayoutNotBoth(fsm: set<Edge>, trace: seq<State>, i: nat, r: nat, q: nat)
    requires SafeFsm(fsm) && Run(fsm, trace) && i < |trace|
    requires r < |trace[i].db.refunds| && q < |trace[i].db.payouts|
    ensures
      var db := trace[i].db;
      db.refunds[r].paymentId < |db.payments| && db.payments[db.refunds[r].paymentId].bookingId != db.payouts[q].bookingId
  {
    RunInv(fsm, trace, i);
    assert RefundJustified(fsm, trace[i].db, trace[i].now, r) && PayoutJustified(fsm, trace[i].db, q);
  }

  /** With unique bookings, the payouts of one booking settle at most its total, once. */
  lemma {:induction false} SettledOnce(payouts: seq<Payout>, bookings: seq<Booking>, b: nat)
    requires forall i, j :: 0 <= i < j < |payouts| ==> payouts[i].bookingId != payouts[j].bookingId
    requires b < |bookings|
    ensures
      Sum(payouts, SettledW(bookings, OfBooking(b), Whole))
      == if exists q :: 0 <= q < |payouts| && payouts[q].bookingId == b then bookings[b].money.total else 0
    decreases |payouts|
  {
    if |payouts| > 0 {
      var n := |payouts| - 1;
      SettledOnce(payouts[..n], bookings, b);
      if payouts[n].bookingId == b {
        assert forall q :: 0 <= q < n ==> payouts[..n][q] == payouts[q] && payouts[q].bookingId != b;
      } else if exists q :: 0 <= q < |payouts| && payouts[q].bookingId == b {
        var q :| 0 <= q < |payouts| && payouts[q].bookingId == b;
        assert payouts[..n][q].bookingId == b;
      }
    }
  }

  /** What a payment still holds in escrow for its booking. */
  function HeldW(b: nat): Payment -> int {
    (p: Payment) => if p.bookingId == b then (if IsCaptured(p.status) then p.amount else 0) - p.refunded else 0
  }

  lemma {:induction false} HeldIsCapturedMinusRefunded(payments: seq<Payment>, b: nat)
    ensures Sum(payments, HeldW(b)) == Sum(payments, CapturedW(OfBooking(b))) - Sum(payments, RefundedW(OfBooking(b)))
    decreases |payments|
  {
    if |payments| > 0 {
      HeldIsCapturedMinusRefunded(payments[..|payments| - 1], b);
    }
  }

  lemma HeldNonNegative(db: Tables, b: nat)
    requires RowsOk(db)
    ensures forall p :: 0 <= p < |db.payments| ==> 0 <= HeldW(b)(db.payments[p])
  {
    forall p | 0 <= p < |db.payments| ensures 0 <= HeldW(b)(db.payments[p]) {
      assert PaymentOk(db, p);
    }
  }

  /** A completed booking holds every captured payment whole: none of it was refunded. */
  lemma FinishedHoldsWhole(fsm: set<Edge>, db: Tables, now: int, p: nat, b: nat)
    requires SafeFsm(fsm) && RowsOk(db) && Funded(fsm, db, now) && Finished(fsm, db, b) && CapturedFor(db, p, b)
    ensures HeldW(b)(db.payments[p]) == db.bookings[b].money.total
  {
    assert PaymentOk(db, p) && PaidInFull(db, p);
    forall r | 0 <= r < |db.refunds| ensures SucceededW(p)(db.refunds[r]) == 0 {
      assert RefundJustified(fsm, db, now, r);
    }
    SumZero(db.refunds, SucceededW(p));
  }

  lemma EscrowOfBookingNonNegative(fsm: set<Edge>, db: Tables, now: int, b: nat)
    requires SafeFsm(fsm) && RowsOk(db) && KeysUnique(db) && Funded(fsm, db, now) && b < |db.bookings|
    ensures RowBalance(db, PlatformEscrow, OfBooking(b)) >= 0
  {
    HeldIsCapturedMinusRefunded(db.payments, b);
    HeldNonNegative(db, b);
    SettledOnce(db.payouts, db.bookings, b);
    if exists q :: 0 <= q < |db.payouts| && db.payouts[q].bookingId == b {
      var q :| 0 <= q < |db.payouts| && db.payouts[q].bookingId == b;
      assert PayoutJustified(fsm, db, q);
      var p: nat :| CapturedFor(db, p, b);
      FinishedHoldsWhole(fsm, db, now, p, b);
      SumAtLeast(db.payments, p, HeldW(b));
    } else {
      SumAtLeast(db.payments, 0, HeldW(b));
    }
  }

  /**
   * Escrow held for a booking is never negative. In the ledger itself: apart from
   * manual adjustments tagged with the booking, its PLATFORM_ESCROW entries never
   * sum below zero, whatever crashes, repeats or races.
   */
  lemma EscrowNeverNegative(fsm: set<Edge>, trace: seq<State>, i: nat, b: nat)
    requires SafeFsm(fsm) && Run(fsm, trace) && i < |trace| && b < |trace[i].db.bookings|
    ensures BalanceOf(trace[i], PlatformEscrow, OfBooking(b)) >= AdjustedTotal(trace[i].db, PlatformEscrow, OfBooking(b))
  {
    RunInv(fsm, trace, i);
    SixBalances(fsm, trace, i, OfBooking(b));
    EscrowOfBookingNonNegative(fsm, trace[i].db, trace[i].now, b);
  }

  // ---- what is final ----

  /**
   * Final facts: a PAID payout's whole row; a payment's money being in or never coming
   * in, its amount, and the intent once attached; a refund having succeeded.
   */
  lemma MoneyFactsAreFinal(fsm: set<Edge>, trace: seq<State>, i: nat, j: nat, row: nat)
    requires Run(fsm, trace) && i <= j < |trace|
    ensures
      var db, db' := trace[i].db, trace[j].db;
      && (row < |db.payouts| && db.payouts[row].status == PayoutStatus.Paid ==>
            row < |db'.payouts| && db'.payouts[row] == db.payouts[row])
      && (row < |db.payments| ==>
            && row < |db'.payments| && db'.payments[row].amount == db.payments[row].amount
            && (IsCaptured(db.payments[row].status) ==> IsCaptured(db'.payments[row].status))
            && (Dead(db.payments[row].status) ==> db'.payments[row].status == db.payments[row].status)
            && (db.payments[row].intent.Some? ==> db'.payments[row].intent == db.payments[row].intent))
      && (row < |db.refunds| && db.refunds[row].status == RefundStatus.Succeeded ==>
            row < |db'.refunds| && db'.refunds[row].status == RefundStatus.Succeeded && db'.refunds[row].amount == db.refunds[row].amount)
  {
    RunForward(fsm, trace, i, j);
    var db, db' := trace[i].db, trace[j].db;
    if row < |db.payouts| {
      assert PayoutGrows(db.payouts[row], db'.payouts[row]);
    }
    if row < |db.payments| {
      assert PaymentGrows(db.payments[row], db'.payments[row]);
    }
    if row < |db.refunds| {
      assert RefundGrows(db.refunds[row], db'.refunds[row]);
    }
  }

  /**
   * Along any run a booking's status moves by a walk of the whitelist: the history
   * of the later state extends that of the earlier one, each history is a walk, and
   * a status without outgoing edges is never left.
   */
  lemma StatusWalksTheWhitelist(fsm: set<Edge>, trace: seq<State>, i: nat, j: nat, b: nat)
    requires Run(fsm, trace) && i <= j < |trace| && b < |trace[i].db.bookings|
    ensures b < |trace[j].db.bookings|
    ensures
      var row, row' := trace[i].db.bookings[b], trace[j].db.bookings[b];
      && row.history <= row'.history
      && Walk(fsm, Statuses(row'.history)) && |row'.history| > 0 && row'.history[|row'.history| - 1].status == row'.status
      && ((forall e :: e in fsm ==> e.0 != row.status) ==> row' == row)
  {
    RunForward(fsm, trace, i, j);
    RunInv(fsm, trace, i);
    RunInv(fsm, trace, j);
    var row, row' := trace[i].db.bookings[b], trace[j].db.bookings[b];
    assert RowGrows(row, row');
    assert HistoryOk(fsm, row, trace[i].now) && HistoryOk(fsm, row', trace[j].now);
    if |row.history| < |row'.history| {
      var w, k := Statuses(row'.history), |row.history| - 1;
      assert row'.history[k] == row.history[k];
      assert (w[k], w[k + 1]) in fsm && w[k] == row.status;
    }
  }

  /**
   * Of the transitions read from one status of a booking at most one ever commits:
   * under a whitelist without cycles, once a state of a run shows the booking past a
   * status, no compare-and-swap that expects it finds a row in that or any later state.
   */
  lemma StaleSwapNeverCommits(
    fsm: set<Edge>, rank: Status -> int, trace: seq<State>, i: nat, j: nat, b: nat, from: Status, to: Status)
    requires Ranked(fsm, rank) && Run(fsm, trace) && i <= j < |trace| && b < |trace[i].db.bookings|
    requires from in Statuses(trace[i].db.bookings[b].history) && from != trace[i].db.bookings[b].status
    ensures
      var s := trace[j];
      && Transition(s.db.bookings, s.db.blocks, fsm, b, from, to, s.now) == NoRow
      && (from == PendingPayment ==> ConfirmHold(s.db.bookings, s.db.blocks, fsm, b, s.now) == NoRow)
      && (from == PendingPayment ==> ExpireIfLapsed(s.db.bookings, s.db.blocks, fsm, b, s.now) == NoRow)
  {
    RunForward(fsm, trace, i, j);
    RunInv(fsm, trace, i);
    RunInv(fsm, trace, j);
    hide Run, EscrowOk, NoDoubleBooking, Funded;
    StaleSwapFindsNoRow(
      fsm, rank, trace[i].db.bookings, trace[j].db.bookings, trace[j].db.blocks, b, from, to, trace[i].now, trace[j].now);
  }

  /**
   * Every confirmation in the recorded history of a booking is strictly before the
   * hold's deadline, every expiry at or after it, and a booking has at most one of
   * the two, at most once.
   */
  lemma ConfirmAndExpirePartition(fsm: set<Edge>, trace: seq<State>, i: nat, b: nat, j: nat, k: nat)
    requires PendingIsEntry(fsm) && Run(fsm, trace) && i < |trace| && b < |trace[i].db.bookings|
    requires
      var h := trace[i].db.bookings[b].history;
      j < |h| && k < |h| && h[j].status in {Confirmed, Expired} && h[k].status in {Confirmed, Expired}
    ensures j == k
    ensures
      var row := trace[i].db.bookings[b];
      row.history[j].status == Confirmed <==> row.history[j].at < row.holdExpiresAt
  {
    RunInv(fsm, trace, i);
    var row := trace[i].db.bookings[b];
    assert HistoryOk(fsm, row, trace[i].now);
    ConfirmOrExpireOnce(fsm, row, trace[i].now, j, k);
  }

  /**
   * When the webhook worker reports an expired hold, after a lost confirmation and
   * whatever the application's own clock says, the booking is never confirmed,
   * checked in or completed in any later state: the refund it asks for is due.
   */
  lemma HoldExpiredIsFinal(fsm: set<Edge>, trace: seq<State>, i: nat, j: nat, w: nat)
    requires SafeFsm(fsm) && Run(fsm, trace) && i <= j < |trace|
    requires w in trace[i].workers && trace[i].workers[w].HoldExpired?
    ensures
      var b := trace[i].workers[w].booking;
      && b < |trace[j].db.bookings|
      && trace[j].db.bookings[b].status !in {Confirmed, CheckedIn, Completed}
  {
    RunInv(fsm, trace, i);
    assert WorkerOk(fsm, trace[i].db, trace[i].now, trace[i].workers[w]);
    RunForward(fsm, trace, i, j);
    assert NoStay(fsm, trace[j].db, trace[j].now, trace[i].workers[w].booking);
  }

  /** In every reachable state no two inventory-holding bookings of one unit overlap. */
  lemma NeverDoubleBooked(fsm: set<Edge>, trace: seq<State>, i: nat)
    requires Run(fsm, trace) && i < |trace|
    ensures NoDoubleBooking(trace[i].db.bookings) && RangesOk(trace[i].db.bookings)
  {
    RunInv(fsm, trace, i);
    assert forall b :: 0 <= b < |trace[i].db.bookings| ==> InsertChecks(trace[i].db.bookings[b]);
  }

  /** One of them checks in no earlier than the other's check-out and minutes of turnaround. */
  lemma StaysNeverMeet(fsm: set<Edge>, trace: seq<State>, i: nat, a: nat, b: nat)
    requires Run(fsm, trace) && i < |trace| && a < |trace[i].db.bookings| && b < |trace[i].db.bookings| && a != b
    requires trace[i].db.bookings[a].unit == trace[i].db.bookings[b].unit
    requires trace[i].db.bookings[a].status in {PendingPayment, Confirmed, CheckedIn}
    requires trace[i].db.bookings[b].status in {PendingPayment, Confirmed, CheckedIn}
    ensures
      var x, y := trace[i].db.bookings[a], trace[i].db.bookings[b];
      x.checkOut + 60_000 * x.turnaroundMinutes <= y.checkIn || y.checkOut + 60_000 * y.turnaroundMinutes <= x.checkIn
  {
    NeverDoubleBooked(fsm, trace, i);
    hide Run;
    StaysApart(trace[i].db.bookings, a, b);
  }
}
