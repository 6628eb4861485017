/**
 * Exact conditions: when the capture transaction commits and takes the money, and when
 * the split of a quoted booking commits.
 */
module EscrowConditions {
  import opened Common
  import opened BookingFsm
  import opened Pricing
  import opened Bookings
  import opened Ledger
  import opened EscrowTables
  import opened EscrowInvariant
  import opened EscrowProtocol
  import opened EscrowFrames
  import opened EscrowSteps
  import opened EscrowSafety
  import opened EscrowTheorems
  import opened EscrowProcesses

  // ---- capture ----

  /** The capture transaction commits exactly when the event names a known payment and does not contradict its amount. */
  lemma CaptureCommitsIff(db: Tables, e: Event)
    requires RowsOk(db)
    ensures ApplyCapture(db, e).Committed? <==>
      && e.intent.Some?
      && PaymentByIntent(db.payments, e.provider, e.intent.value).Some?
      && (e.amount.None? || e.amount.value == db.payments[PaymentByIntent(db.payments, e.provider, e.intent.value).value].amount)
  {
    if e.intent.Some? && PaymentByIntent(db.payments, e.provider, e.intent.value).Some? {
      var i := PaymentByIntent(db.payments, e.provider, e.intent.value).value;
      var p := db.payments[i];
      assert PaymentOk(db, i);
      var legs := CaptureLegs(p, i);
      assert legs == [legs[0], legs[1]];
      PairPosts(db.ledger, p.currency, legs[0], legs[1]);
    }
  }

  /**
   * After a committed capture transaction the payment is captured exactly when it had
   * not already failed or been voided. A payment that failed first stays failed, and
   * the money of a later capture event is not recorded.
   */
  lemma CaptureTakesMoneyIff(db: Tables, e: Event)
    requires RowsOk(db) && ApplyCapture(db, e).Committed?
    ensures
      var i := PaymentByIntent(db.payments, e.provider, e.intent.value).value;
      IsCaptured(ApplyCapture(db, e).db.payments[i].status)
      <==> db.payments[i].status !in {PaymentStatus.Failed, PaymentStatus.Voided}
    ensures
      var i := PaymentByIntent(db.payments, e.provider, e.intent.value).value;
      !Capturable(db.payments[i].status) ==> ApplyCapture(db, e).db == db
  {
    var i := PaymentByIntent(db.payments, e.provider, e.intent.value).value;
    match db.payments[i].status {
      case Failed =>
      case Voided =>
      case Captured =>
      case PartiallyRefunded =>
      case Refunded =>
      case _ =>
        assert ApplyCapture(db, e).db.payments == MarkCaptured(db, i).value.payments;
    }
  }

  lemma ConfirmSwapConfirms(fsm: set<Edge>, s: State, w: nat)
    requires w in s.workers && s.workers[w].ReadyToConfirm?
    requires Next(fsm, s, ConfirmSwap(w)).Some? && At(Next(fsm, s, ConfirmSwap(w)).value, w) == Some(Finishing(s.workers[w].event))
    ensures
      var b, db' := s.workers[w].booking, Next(fsm, s, ConfirmSwap(w)).value.db;
      b < |db'.bookings| && db'.bookings[b].status == Confirmed
  {
    hide Next;
    ConfirmSteps(fsm, s, w, 0);
  }

  /** Once decided, a payment's fate stays: money in for good, or never in. */
  lemma DecidedStays(fsm: set<Edge>, trace: seq<State>, i: nat, j: nat, p: nat, b: nat)
    requires Run(fsm, trace) && i <= j < |trace| && DecidedFor(trace[i].db, p, b)
    ensures DecidedFor(trace[j].db, p, b)
    ensures IsCaptured(trace[j].db.payments[p].status) <==> IsCaptured(trace[i].db.payments[p].status)
  {
    RunForward(fsm, trace, i, j);
    assert PaymentGrows(trace[i].db.payments[p], trace[j].db.payments[p]);
  }

  /** Only the confirming swap takes a worker from ReadyToConfirm to the end of its event. */
  lemma SwapOf(fsm: set<Edge>, s: State, step: Step, w: nat)
    requires Next(fsm, s, step).Some? && w in s.workers && s.workers[w].ReadyToConfirm?
    requires At(Next(fsm, s, step).value, w) == Some(Finishing(s.workers[w].event))
    ensures step == ConfirmSwap(w)
  {
    hide Frame, NextBooking, NextInbox, NextWebhook, NextPayout, NextRefund, NextEnvironment, Workerless;
    StepFrames(fsm, s, step);
    MovedInsideEvent(s, Next(fsm, s, step).value, step, w);
    if IsWebhookStep(step) {
      WebhookSwapOf(fsm, s, step);
    } else {
      InboxSwapOf(s, step);
    }
  }

  lemma MovedInsideEvent(s: State, s': State, step: Step, w: nat)
    requires Frame(s, s', step) && w in s.workers && s.workers[w].ReadyToConfirm? && w in s'.workers && s'.workers[w].Finishing?
    ensures By(step, w) && (IsInboxStep(step) || IsWebhookStep(step))
  {
    hide IsBookingStep, IsInboxStep, IsWebhookStep, IsPayoutStep, IsRefundStep, Workerless, OnlyItsWorker, WritesEvents;
    WorkerOrigin(s, s', step, w);
  }

  lemma WebhookSwapOf(fsm: set<Edge>, s: State, step: Step)
    requires IsWebhookStep(step) && NextWebhook(fsm, s, step).Some? && step.w in s.workers && s.workers[step.w].ReadyToConfirm?
    ensures step.ConfirmSwap?
  {
    hide ConfirmHold;
  }

  lemma InboxSwapOf(s: State, step: Step)
    requires IsInboxStep(step) && !Workerless(step) && NextInbox(s, step).Some? && step.w in s.workers && s.workers[step.w].ReadyToConfirm?
    ensures step.Throw? && At(NextInbox(s, step).value, step.w) == Some(Failing(s.workers[step.w].event))
  {
    hide RecordEvent, ClaimEvent, MarkEvent;
  }

  /**
   * In every run: whenever a webhook worker's swap confirms a booking, there is an
   * earlier instant at which its capture transaction committed for a payment of that
   * booking, and that payment's money is in escrow's books now if and only if the
   * payment was neither FAILED nor VOIDED at that instant.
   */
  lemma ConfirmedWithMoneyIff(fsm: set<Edge>, trace: seq<State>, j: nat, w: nat) returns (i: nat)
    requires Run(fsm, trace) && j + 1 < |trace| && w in trace[j].workers && trace[j].workers[w].ReadyToConfirm?
    requires At(trace[j + 1], w) == Some(Finishing(trace[j].workers[w].event))
    ensures i < j && CapturedBy(fsm, trace[i], w, trace[j].workers[w]) && Next(fsm, trace[i], CaptureTx(w)) == Some(trace[i + 1])
    ensures
      var b, p, db' := trace[j].workers[w].booking, trace[j].workers[w].payment, trace[j + 1].db;
      && b < |db'.bookings| && db'.bookings[b].status == Confirmed
      && p < |trace[i].db.payments| && p < |db'.payments| && db'.payments[p].bookingId == b
      && (IsCaptured(db'.payments[p].status) <==> !Dead(trace[i].db.payments[p].status))
      && (Measure(db'.ledger, CapturePosts(p)) == 1 <==> !Dead(trace[i].db.payments[p].status))
  {
    hide Run, Next, CapturedBy, ApplyCapture, NamedPayment;
    i := CaptureOrigin(fsm, trace, j, w);
    var step := StepInto(fsm, trace, j + 1);
    SwapOf(fsm, trace[j], step, w);
    ConfirmSwapConfirms(fsm, trace[j], w);
    DecidedAtCommit(fsm, trace, i, w, trace[j].workers[w]);
    DecidedStays(fsm, trace, i + 1, j + 1, trace[j].workers[w].payment, trace[j].workers[w].booking);
    PostedExactlyOnce(fsm, trace, j + 1, trace[j].workers[w].payment);
  }

  /** The committed capture transaction decides the payment: its money is in unless the payment was dead. */
  lemma DecidedAtCommit(fsm: set<Edge>, trace: seq<State>, i: nat, w: nat, worker: Worker)
    requires Run(fsm, trace) && i + 1 < |trace| && CapturedBy(fsm, trace[i], w, worker)
    requires Next(fsm, trace[i], CaptureTx(w)) == Some(trace[i + 1])
    ensures DecidedFor(trace[i + 1].db, worker.payment, worker.booking) && worker.payment < |trace[i].db.payments|
    ensures IsCaptured(trace[i + 1].db.payments[worker.payment].status) <==> !Dead(trace[i].db.payments[worker.payment].status)
  {
    hide Run, Next;
    RunInv(fsm, trace, i);
    RunInv(fsm, trace, i + 1);
    CaptureTakesMoneyIff(trace[i].db, trace[i].db.events[worker.event]);
    hide ApplyCapture;
    TransactionSteps(fsm, trace[i], w);
    assert trace[i + 1].workers[w] == CaptureApplied(worker.event, worker.booking, worker.payment);
    assert WorkerOk(fsm, trace[i + 1].db, trace[i + 1].now, trace[i + 1].workers[w]);
  }

  /**
   * Processing a capture event for a failed payment confirms the booking all the same:
   * from any state in which such an event for a live hold has been claimed, four steps
   * of that worker reach a confirmed booking with nothing in escrow for it.
   */
  lemma CaptureAfterFailureConfirms(fsm: set<Edge>, s: State, w: nat, ev: nat, i: nat, b: nat) returns (path: seq<State>)
    requires NoDoubleBooking(s.db.bookings) && (PendingPayment, Confirmed) in fsm
    requires w in s.workers && s.workers[w] == Claimed(ev) && ev < |s.db.events| && s.db.events[ev].kind == PaymentCaptured
    requires ApplyCapture(s.db, s.db.events[ev]).Committed? && NamedPayment(s.db, s.db.events[ev]) == i
    requires s.db.payments[i].status == PaymentStatus.Failed && s.db.payments[i].bookingId == b < |s.db.bookings|
    requires s.db.bookings[b].status == PendingPayment && s.db.bookings[b].holdExpiresAt > s.now
    requires
      var row := s.db.bookings[b];
      !HostBlocked(s.db.blocks, row.unit, row.checkIn, BlockEnd(row.checkOut, row.turnaroundMinutes))
    ensures |path| == 5 && path[0] == s && forall k :: 0 <= k < 4 ==> Follows(fsm, path[k], path[k + 1])
    ensures |path[4].db.bookings| == |s.db.bookings| && path[4].db.bookings[b].status == Confirmed
    ensures path[4].db.payments == s.db.payments && path[4].db.ledger == s.db.ledger
  {
    ConfirmLiveHold(fsm, s.db, s.now, b);
    var bookings' := ConfirmHold(s.db.bookings, s.db.blocks, fsm, b, s.now).value;
    var s1 := Goto(s, w, CaptureApplied(ev, b, i));
    var s2 := Goto(s1, w, SawPending(ev, b, i));
    var s3 := Goto(s2, w, ReadyToConfirm(ev, b, i));
    var s4 := Goto(WithBookings(s3, bookings'), w, Finishing(ev));
    path := [s, s1, s2, s3, s4];
    assert ApplyCapture(s.db, s.db.events[ev]) == Committed(s.db, b);
    hide NoDoubleBooking, ApplyCapture, ConfirmHold, HostBlocked, Follows;
    CaptureStepsTo(fsm, s, w, ev, b);
    ConfirmStepsTo(fsm, s1, w, ev, b, i, bookings');
  }

  lemma CaptureStepsTo(fsm: set<Edge>, s: State, w: nat, ev: nat, b: nat)
    requires w in s.workers && s.workers[w] == Claimed(ev) && ev < |s.db.events| && s.db.events[ev].kind == PaymentCaptured
    requires ApplyCapture(s.db, s.db.events[ev]) == Committed(s.db, b)
    ensures Follows(fsm, s, Goto(s, w, CaptureApplied(ev, b, NamedPayment(s.db, s.db.events[ev]))))
  {
    hide ApplyCapture, Next;
    TransactionSteps(fsm, s, w);
  }

  lemma ConfirmStepsTo(fsm: set<Edge>, s: State, w: nat, ev: nat, b: nat, i: nat, bookings': seq<Booking>)
    requires w in s.workers && s.workers[w] == CaptureApplied(ev, b, i) && b < |s.db.bookings|
    requires s.db.bookings[b].status == PendingPayment && (PendingPayment, Confirmed) in fsm
    requires ConfirmHold(s.db.bookings, s.db.blocks, fsm, b, s.now) == Wrote(bookings')
    ensures
      var s2 := Goto(s, w, SawPending(ev, b, i));
      var s3 := Goto(s2, w, ReadyToConfirm(ev, b, i));
      Follows(fsm, s, s2) && Follows(fsm, s2, s3) && Follows(fsm, s3, Goto(WithBookings(s3, bookings'), w, Finishing(ev)))
  {
    hide ConfirmHold, Next;
    var s2 := Goto(s, w, SawPending(ev, b, i));
    ConfirmSteps(fsm, s, w, 0);
    ConfirmSteps(fsm, s2, w, 0);
    ConfirmSteps(fsm, Goto(s2, w, ReadyToConfirm(ev, b, i)), w, 0);
  }

  /** A live hold without a host block over it can always be confirmed: no other booking overlaps it. */
  lemma ConfirmLiveHold(fsm: set<Edge>, db: Tables, now: int, b: nat)
    requires NoDoubleBooking(db.bookings) && (PendingPayment, Confirmed) in fsm && b < |db.bookings|
    requires db.bookings[b].status == PendingPayment && db.bookings[b].holdExpiresAt > now
    requires
      var row := db.bookings[b];
      !HostBlocked(db.blocks, row.unit, row.checkIn, BlockEnd(row.checkOut, row.turnaroundMinutes))
    ensures
      var r := ConfirmHold(db.bookings, db.blocks, fsm, b, now);
      r.Wrote? && |r.value| == |db.bookings| && r.value[b].status == Confirmed
  {
  }

  // ---- the split of a quoted booking ----

  /**
   * For a booking whose money is a quote with its percentages in range, the split
   * transaction commits exactly when the commission leaves the host more than half a
   * minor unit of the net base.
   */
  lemma QuotedSplitCommitsIff(db: Tables, b: nat, p: nat, base: int, discountPct: int, commissionPct: int)
    requires RowsOk(db) && b < |db.bookings| && p < |db.payments|
    ensures db.bookings[b].money == MoneyFor(base, discountPct, commissionPct) ==>
      (SplitEscrow(db, b, p).Committed? <==> NetBase(base, discountPct) * (FULL_PCT - commissionPct) > FULL_PCT / 2)
  {
    SplitCommitsIff(db, b, p);
    HostIsPaidIff(base, discountPct, commissionPct);
  }

  /** So a booking with a commission of one hundred percent passes its checks and can never be settled. */
  lemma FullCommissionNeverSettles(db: Tables, b: nat, p: nat, base: int, discountPct: int)
    requires RowsOk(db) && b < |db.bookings| && p < |db.payments|
    requires 0 <= base && 0 <= discountPct <= FULL_PCT
    ensures MoneyChecks(MoneyFor(base, discountPct, FULL_PCT))
    ensures db.bookings[b].money == MoneyFor(base, discountPct, FULL_PCT) ==> SplitEscrow(db, b, p) == RolledBack
  {
    FullCommissionPaysNoHost(base, discountPct);
    QuotedSplitCommitsIff(db, b, p, base, discountPct, FULL_PCT);
  }
}
