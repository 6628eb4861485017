/**
 * Runs from the empty tables that reach what the run theorems do not exclude: a
 * booking confirmed without its money, and a remainder requested twice.
 */
module EscrowScenarios {
  import opened Common
  import opened BookingFsm
  import opened Bookings
  import opened EscrowTables
  import opened EscrowProtocol
  import opened EscrowSteps
  import opened EscrowTheorems
  import opened EscrowConditions
  import opened EscrowRefunds

  // ---- building runs ----

  ghost predicate RunTo(fsm: set<Edge>, trace: seq<State>, s: State) {
    Run(fsm, trace) && |trace| > 0 && trace[|trace| - 1] == s
  }

  lemma Begin(fsm: set<Edge>, now: int) returns (trace: seq<State>)
    ensures RunTo(fsm, trace, Init(now))
  {
    trace := [Init(now)];
  }

  lemma Extend(fsm: set<Edge>, trace: seq<State>, s: State, step: Step, s': State) returns (trace': seq<State>)
    requires RunTo(fsm, trace, s) && Next(fsm, s, step) == Some(s')
    ensures RunTo(fsm, trace', s')
  {
    hide Next;
    trace' := trace + [s'];
    assert Follows(fsm, s, s');
  }

  lemma Append(fsm: set<Edge>, trace: seq<State>, path: seq<State>) returns (trace': seq<State>)
    requires |path| > 0 && RunTo(fsm, trace, path[0])
    requires forall k :: 0 <= k < |path| - 1 ==> Follows(fsm, path[k], path[k + 1])
    ensures RunTo(fsm, trace', path[|path| - 1])
  {
    hide Follows;
    trace' := trace + path[1..];
    forall i | 0 <= i < |trace'| - 1 ensures Follows(fsm, trace'[i], trace'[i + 1]) {
      if i >= |trace| - 1 {
        assert trace'[i] == path[i - |trace| + 1] && trace'[i + 1] == path[i - |trace| + 2];
      }
    }
  }

  /** A hold, and a payment for it whose intent is with the provider. */
  function Awaiting(row: Booking, provider: Provider, key: string, intent: string, now: int): State {
    Init(now).(db := EMPTY.(
      bookings := [FreshHold(row, now)],
      payments := [Payment(0, provider, key, Some(intent), PaymentStatus.RequiresAction, row.money.total, row.currency, 0)]))
  }

  lemma ReachAwaiting(fsm: set<Edge>, row: Booking, provider: Provider, key: string, intent: string, now: int) returns (trace: seq<State>)
    requires InsertChecks(row) && row.money.total > 0
    ensures RunTo(fsm, trace, Awaiting(row, provider, key, intent, now))
  {
    var s0 := Init(now);
    var s1 := WithBookings(s0, [FreshHold(row, now)]);
    assert InsertHold([], [], row, now).value == [FreshHold(row, now)];
    trace := Begin(fsm, now);
    hide Next, RunTo, InsertHold;
    HoldSteps(fsm, s0, row, 0);
    trace := Extend(fsm, trace, s0, PlaceHold(row), s1);
    trace := ReachInitiated(fsm, trace, s1, provider, key, intent);
    assert s1.db.(payments := Awaiting(row, provider, key, intent, now).db.payments) == Awaiting(row, provider, key, intent, now).db;
  }

  lemma ReachInitiated(fsm: set<Edge>, before: seq<State>, s: State, provider: Provider, key: string, intent: string)
    returns (trace: seq<State>)
    requires RunTo(fsm, before, s) && s.db.payments == [] && |s.db.bookings| == 1 && s.db.bookings[0].money.total > 0
    ensures
      var amount, currency := s.db.bookings[0].money.total, s.db.bookings[0].currency;
      RunTo(fsm, trace, s.(db := s.db.(payments :=
        [Payment(0, provider, key, Some(intent), PaymentStatus.RequiresAction, amount, currency, 0)])))
  {
    var amount, currency := s.db.bookings[0].money.total, s.db.bookings[0].currency;
    var s1 := s.(db := s.db.(payments := [Payment(0, provider, key, None, PaymentStatus.Initiated, amount, currency, 0)]));
    var s2 := s.(db := s.db.(payments := [Payment(0, provider, key, Some(intent), PaymentStatus.RequiresAction, amount, currency, 0)]));
    assert InsertPayment(s.db, 0, provider, key, amount, currency).value.payments == s1.db.payments;
    assert AttachIntent(s1.db, 0, intent).value.payments == s2.db.payments;
    hide Next, RunTo, InsertPayment, AttachIntent;
    InitiationSteps(fsm, s, 0, provider, key, 0, intent);
    InitiationSteps(fsm, s1, 0, provider, key, 0, intent);
    trace := Extend(fsm, before, s, Initiate(0, provider, key), s1);
    trace := Extend(fsm, trace, s1, Attach(0, intent), s2);
  }

  /** An event is recorded, queued and claimed by an idle worker. */
  function Delivered(s: State, w: nat, e: Event): State {
    var id := |s.db.events|;
    s.(db := s.db.(events := s.db.events + [e.(status := WebhookStatus.Processing, attempts := 1)]),
       jobs := s.jobs + {ProcessWebhook(id)},
       workers := s.workers[w := Claimed(id)])
  }

  lemma ReachDelivered(fsm: set<Edge>, before: seq<State>, s: State, w: nat, e: Event) returns (trace: seq<State>)
    requires RunTo(fsm, before, s) && w !in s.workers && !Recorded(s.db.events, e.provider, e.eventId)
    ensures RunTo(fsm, trace, Delivered(s, w, e))
  {
    hide Next, RunTo;
    var id := |s.db.events|;
    DeliverySteps(fsm, s, w, e, true, id);
    var s1 := Goto(s.(db := RecordEvent(s.db, e, true).value), w, EventRecorded(id));
    DeliverySteps(fsm, s1, w, e, true, id);
    var s2 := Stop(Enqueue(s1, ProcessWebhook(id)), w);
    DeliverySteps(fsm, s2, w, e, true, id);
    var s3 := Goto(s2.(db := ClaimEvent(s2.db, id).value), w, Claimed(id));
    assert s3.workers == Delivered(s, w, e).workers;
    assert s3.db.events == Delivered(s, w, e).db.events;
    trace := Extend(fsm, before, s, Intake(w, e, true), s1);
    trace := Extend(fsm, trace, s1, IntakeEnqueue(w), s2);
    trace := Extend(fsm, trace, s2, Claim(w, id), s3);
  }

  /** An event about the payment with this intent. */
  function Notice(kind: EventKind, provider: Provider, eventId: string, intent: string): Event {
    Event(provider, eventId, WebhookStatus.Received, 0, kind, Some(intent), None, None)
  }

  // ---- a capture event after a failure event ----

  /** The payment failed at the provider's word, and the event about it is done with. */
  function FailedFirst(s: State, failure: Event): State
    requires |s.db.payments| == 1
  {
    var processed := failure.(status := WebhookStatus.Processed, attempts := 1);
    s.(db := s.db.(payments := [s.db.payments[0].(status := PaymentStatus.Failed)], events := [processed]),
       jobs := {ProcessWebhook(0)})
  }

  lemma ReachFailed(fsm: set<Edge>, row: Booking, provider: Provider, key: string, intent: string, failureId: string, now: int)
    returns (trace: seq<State>)
    requires InsertChecks(row) && row.money.total > 0
    ensures RunTo(fsm, trace, FailedFirst(Awaiting(row, provider, key, intent, now), Notice(PaymentFailed, provider, failureId, intent)))
  {
    hide Next, RunTo;
    var s0 := Awaiting(row, provider, key, intent, now);
    var failure := Notice(PaymentFailed, provider, failureId, intent);
    trace := ReachAwaiting(fsm, row, provider, key, intent, now);
    trace := ReachDelivered(fsm, trace, s0, 0, failure);
    var s1 := Delivered(s0, 0, failure);
    assert PaymentByIntent(s1.db.payments, provider, intent) == Some(0);
    TransactionSteps(fsm, s1, 0);
    var s2 := Goto(s1.(db := ApplyFailure(s1.db, s1.db.events[0]).db), 0, Finishing(0));
    EndingSteps(fsm, s2, 0, WebhookStatus.Processed);
    var s3 := FailedFirst(s0, failure);
    assert MarkEvent(s2.db, 0, WebhookStatus.Processed).value.events == s3.db.events;
    assert s2.db.payments == s3.db.payments;
    assert s2.workers - {0} == s3.workers && s2.jobs == s3.jobs;
    trace := Extend(fsm, trace, s1, FailureTx(0), s2);
    trace := Extend(fsm, trace, s2, Finish(0), s3);
  }

  /**
   * For every live hold with a price, every provider and every pair of distinct events:
   * hold, payment, failure event, capture event is a run, and at its end the booking is
   * confirmed while its only payment is FAILED and the ledger is empty.
   */
  lemma ConfirmedWithoutMoney(
    fsm: set<Edge>, row: Booking, provider: Provider, key: string, intent: string,
    failureId: string, captureId: string, now: int)
    returns (trace: seq<State>)
    requires (PendingPayment, Confirmed) in fsm && failureId != captureId
    requires InsertChecks(row) && row.money.total > 0 && row.holdExpiresAt > now
    ensures Run(fsm, trace) && |trace| > 0
    ensures
      var db := trace[|trace| - 1].db;
      && |db.bookings| == 1 && db.bookings[0].status == Confirmed
      && |db.payments| == 1 && db.payments[0].bookingId == 0 && db.payments[0].status == PaymentStatus.Failed
      && db.ledger == []
  {
    var failure, capture := Notice(PaymentFailed, provider, failureId, intent), Notice(PaymentCaptured, provider, captureId, intent);
    var s0 := FailedFirst(Awaiting(row, provider, key, intent, now), failure);
    var s := Delivered(s0, 0, capture);
    trace := ReachFailed(fsm, row, provider, key, intent, failureId, now);
    trace := ReachDelivered(fsm, trace, s0, 0, capture);
    assert PaymentByIntent(s.db.payments, provider, intent) == Some(0);
    assert ApplyCapture(s.db, s.db.events[1]) == Committed(s.db, 0);
    var path := CaptureAfterFailureConfirms(fsm, s, 0, 1, 0, 0);
    trace := Append(fsm, trace, path);
  }

  // ---- two refund workers ----

  /** The captured state, its worker still inside the event. */
  lemma ReachCaptured(fsm: set<Edge>, row: Booking, provider: Provider, key: string, intent: string, captureId: string, now: int)
    returns (trace: seq<State>, s: State)
    requires InsertChecks(row) && row.money.total > 0
    ensures RunTo(fsm, trace, s) && s.now == now && s.workers == map[0 := CaptureApplied(0, 0, 0)]
    ensures s.db.bookings == [FreshHold(row, now)] && s.db.blocks == [] && s.db.refunds == []
    ensures |s.db.events| == 1 && s.db.events[0].eventId == captureId
    ensures s.db.payments == [Payment(0, provider, key, Some(intent), PaymentStatus.Captured, row.money.total, row.currency, 0)]
  {
    hide Next;
    var s0 := Awaiting(row, provider, key, intent, now);
    var capture := Notice(PaymentCaptured, provider, captureId, intent);
    trace := ReachAwaiting(fsm, row, provider, key, intent, now);
    trace := ReachDelivered(fsm, trace, s0, 0, capture);
    var s1 := Delivered(s0, 0, capture);
    assert PaymentByIntent(s1.db.payments, provider, intent) == Some(0);
    RunInv(fsm, trace, |trace| - 1);
    CaptureCommitsIff(s1.db, s1.db.events[0]);
    TransactionSteps(fsm, s1, 0);
    s := Goto(s1.(db := ApplyCapture(s1.db, s1.db.events[0]).db), 0, CaptureApplied(0, 0, 0));
    hide Run;
    trace := Extend(fsm, trace, s1, CaptureTx(0), s);
  }

  /** The guest cancels, and the refund job is queued. */
  lemma ReachCancelled(fsm: set<Edge>, before: seq<State>, s: State) returns (trace: seq<State>, s': State)
    requires RunTo(fsm, before, s) && (PendingPayment, Status.Cancelled) in fsm
    requires |s.db.bookings| == 1 && s.db.bookings[0].status == PendingPayment && 1 !in s.workers
    ensures RunTo(fsm, trace, s') && s'.workers == s.workers && CreateRefund(0) in s'.jobs
    ensures s'.db == s.db.(bookings := s'.db.bookings) && |s'.db.bookings| == 1 && s'.db.bookings[0].status == Status.Cancelled
  {
    hide Next, RunTo;
    CancelSteps(fsm, s, 1, 0);
    var s1 := Goto(s, 1, ReadyToCancel(0, PendingPayment));
    CancelSteps(fsm, s1, 1, 0);
    var cancelled := Transition(s.db.bookings, s.db.blocks, fsm, 0, PendingPayment, Status.Cancelled, s.now);
    var s2 := Goto(WithBookings(s1, cancelled.value), 1, CancelCommitted(0));
    CancelSteps(fsm, s2, 1, 0);
    s' := Stop(Enqueue(s2, CreateRefund(0)), 1);
    trace := Extend(fsm, before, s, StartCancel(1, 0), s1);
    trace := Extend(fsm, trace, s1, CancelSwap(1), s2);
    trace := Extend(fsm, trace, s2, CancelEnqueue(1), s');
  }

  /**
   * For every priced hold and every provider: hold, payment, capture, cancellation, and
   * the one refund job delivered to two workers is a run at whose end the whole payment
   * has been requested back twice.
   */
  lemma RemainderRequestedTwice(
    fsm: set<Edge>, row: Booking, provider: Provider, key: string, intent: string, captureId: string, now: int)
    returns (trace: seq<State>)
    requires (PendingPayment, Status.Cancelled) in fsm
    requires InsertChecks(row) && row.money.total > 0
    ensures Run(fsm, trace) && |trace| > 0
    ensures
      var db := trace[|trace| - 1].db;
      var r := Refund(0, None, RefundStatus.Pending, row.money.total, row.currency);
      |db.payments| == 1 && db.payments[0].amount == row.money.total && db.refunds == [r, r]
  {
    var before, s := ReachCaptured(fsm, row, provider, key, intent, captureId, now);
    var s': State;
    trace, s' := ReachCancelled(fsm, before, s);
    var path := TwoWorkersRefundTwice(fsm, s', 2, 3, 0, 0);
    trace := Append(fsm, trace, path);
  }

  // ---- a refund event before its reference is attached ----

  /** The refund job has asked the provider, and has not yet attached the reference it was given. */
  lemma ReachAccepted(fsm: set<Edge>, before: seq<State>, s: State, w: nat, ref: string) returns (trace: seq<State>, s': State)
    requires RunTo(fsm, before, s) && w !in s.workers && CreateRefund(0) in s.jobs && s.db.refunds == []
    requires |s.db.payments| == 1 && s.db.payments[0].bookingId == 0 && s.db.payments[0].intent.Some?
    requires s.db.payments[0].status == PaymentStatus.Captured && s.db.payments[0].refunded == 0 < s.db.payments[0].amount
    ensures RunTo(fsm, trace, s') && s'.db == Requested(s, 0, s.db.payments[0].amount)
    ensures s'.workers.Keys == s.workers.Keys + {w} && s'.workers[w] == RefundAccepted(0, ref)
  {
    assert CapturedForBooking(s.db.payments, 0) == Some(0);
    RefundAsks(fsm, s, w, 0, 0, ref);
    hide Follows, CapturedForBooking, RunTo;
    var path := Asked(s, w, 0, ref);
    trace := Append(fsm, before, path);
    s' := path[4];
  }

  /** The work on a refund event that no row awaits, up to the mark: it moves the cancelled booking and no money. */
  function Unawaited(s: State, w: nat, ev: nat, bookings': seq<Booking>): seq<State> {
    var s1 := Goto(s, w, RefundApplied(ev, 0));
    var s2 := Goto(s1, w, SawCancelled(ev, 0));
    var s3 := Goto(s2, w, ReadyToMarkRefunded(ev, 0, Status.Cancelled));
    [s, s1, s2, s3, Goto(WithBookings(s3, bookings'), w, Finishing(ev))]
  }

  lemma UnawaitedFollows(fsm: set<Edge>, s: State, w: nat, ev: nat, bookings': seq<Booking>)
    requires w in s.workers && s.workers[w] == Claimed(ev) && ev < |s.db.events| && s.db.events[ev].kind == RefundSucceeded
    requires ApplyRefund(s.db, s.db.events[ev]) == Committed(s.db, 0) && (Status.Cancelled, Status.Refunded) in fsm
    requires |s.db.bookings| > 0 && s.db.bookings[0].status == Status.Cancelled
    requires Transition(s.db.bookings, s.db.blocks, fsm, 0, Status.Cancelled, Status.Refunded, s.now) == Wrote(bookings')
    ensures var path := Unawaited(s, w, ev, bookings'); forall k :: 0 <= k < 4 ==> Follows(fsm, path[k], path[k + 1])
  {
    hide Transition, Next, ApplyRefund;
    var path := Unawaited(s, w, ev, bookings');
    TransactionSteps(fsm, s, w);
    RefundedSteps(fsm, path[1], w);
    RefundedSteps(fsm, path[2], w);
    RefundedSteps(fsm, path[3], w);
    assert Next(fsm, path[0], RefundTx(w)) == Some(path[1]);
  }

  /** Processing a refund event that no row awaits marks the cancelled booking REFUNDED and leaves the money as it was. */
  lemma ReachProcessed(fsm: set<Edge>, before: seq<State>, s: State, w: nat, ev: nat) returns (trace: seq<State>, s': State)
    requires RunTo(fsm, before, s) && (Status.Cancelled, Status.Refunded) in fsm
    requires w in s.workers && s.workers[w] == Claimed(ev) && ev < |s.db.events| && s.db.events[ev].kind == RefundSucceeded
    requires ApplyRefund(s.db, s.db.events[ev]) == Committed(s.db, 0)
    requires |s.db.bookings| == 1 && s.db.bookings[0].status == Status.Cancelled
    ensures RunTo(fsm, trace, s') && s'.workers == s.workers - {w}
    ensures s'.db == s.db.(bookings := s'.db.bookings, events := s'.db.events)
    ensures |s'.db.bookings| == 1 && s'.db.bookings[0].status == Status.Refunded
    ensures |s'.db.events| == |s.db.events| && s'.db.events[ev] == s.db.events[ev].(status := WebhookStatus.Processed)
  {
    var moved := Transition(s.db.bookings, s.db.blocks, fsm, 0, Status.Cancelled, Status.Refunded, s.now);
    assert moved.Wrote? && |moved.value| == 1 && moved.value[0].status == Status.Refunded;
    UnawaitedFollows(fsm, s, w, ev, moved.value);
    hide RunTo, Follows, ApplyRefund, Transition;
    var path := Unawaited(s, w, ev, moved.value);
    trace := Append(fsm, before, path);
    trace := ReachMarked(fsm, trace, path[4], w, ev);
    s' := Stop(path[4].(db := MarkEvent(path[4].db, ev, WebhookStatus.Processed).value), w);
  }

  lemma ReachMarked(fsm: set<Edge>, before: seq<State>, s: State, w: nat, ev: nat) returns (trace: seq<State>)
    requires RunTo(fsm, before, s) && w in s.workers && s.workers[w] == Finishing(ev) && ev < |s.db.events|
    ensures RunTo(fsm, trace, Stop(s.(db := MarkEvent(s.db, ev, WebhookStatus.Processed).value), w))
  {
    hide Next, RunTo;
    EndingSteps(fsm, s, w, WebhookStatus.Processed);
    trace := Extend(fsm, before, s, Finish(w), Stop(s.(db := MarkEvent(s.db, ev, WebhookStatus.Processed).value), w));
  }

  /**
   * For every priced hold and every provider: hold, payment, capture, cancellation, the
   * refund requested, and the provider's refund event processed before the job attaches
   * the reference. At its end the event is PROCESSED and the booking REFUNDED, while the
   * refund is still PENDING and nothing of the payment has gone back in the books.
   */
  lemma RefundEventTooEarly(
    fsm: set<Edge>, row: Booking, provider: Provider, key: string, intent: string,
    captureId: string, refundId: string, ref: string, now: int)
    returns (trace: seq<State>)
    requires (PendingPayment, Status.Cancelled) in fsm && (Status.Cancelled, Status.Refunded) in fsm && captureId != refundId
    requires InsertChecks(row) && row.money.total > 0
    ensures Run(fsm, trace) && |trace| > 0
    ensures
      var db := trace[|trace| - 1].db;
      && |db.events| == 2 && db.events[1].status == WebhookStatus.Processed && db.events[1].kind == RefundSucceeded
      && |db.bookings| == 1 && db.bookings[0].status == Status.Refunded
      && db.refunds == [Refund(0, Some(ref), RefundStatus.Pending, row.money.total, row.currency)]
      && |db.payments| == 1 && db.payments[0].status == PaymentStatus.Captured && db.payments[0].refunded == 0
  {
    hide Run, RunTo;
    var accepted, s := ReachRequested(fsm, row, provider, key, intent, captureId, ref, now);
    var notice := Event(provider, refundId, WebhookStatus.Received, 0, RefundSucceeded, Some(intent), Some(ref), None);
    var claimed := ReachDelivered(fsm, accepted, s, 3, notice);
    var s1 := Delivered(s, 3, notice);
    assert PaymentByIntent(s1.db.payments, provider, intent) == Some(0);
    assert ApplyRefund(s1.db, s1.db.events[1]) == Committed(s1.db, 0);
    hide ApplyRefund;
    var processed, s2 := ReachProcessed(fsm, claimed, s1, 3, 1);
    trace := ReachAttached(fsm, processed, s2, 2, ref);
    RunIs(fsm, trace, Stop(s2.(db := s2.db.(refunds := [s2.db.refunds[0].(providerRef := Some(ref))])), 2));
  }

  lemma RunIs(fsm: set<Edge>, trace: seq<State>, s: State)
    requires RunTo(fsm, trace, s)
    ensures Run(fsm, trace) && |trace| > 0 && trace[|trace| - 1] == s
  {
    hide Run;
  }

  /** Hold, payment, capture, cancellation, and a refund job that has its answer from the provider. */
  lemma ReachRequested(
    fsm: set<Edge>, row: Booking, provider: Provider, key: string, intent: string, captureId: string, ref: string, now: int)
    returns (trace: seq<State>, s: State)
    requires (PendingPayment, Status.Cancelled) in fsm && InsertChecks(row) && row.money.total > 0
    ensures RunTo(fsm, trace, s) && s.workers.Keys == {0, 2} && s.workers[2] == RefundAccepted(0, ref)
    ensures |s.db.bookings| == 1 && s.db.bookings[0].status == Status.Cancelled
    ensures |s.db.events| == 1 && s.db.events[0].eventId == captureId
    ensures s.db.payments == [Payment(0, provider, key, Some(intent), PaymentStatus.Captured, row.money.total, row.currency, 0)]
    ensures s.db.refunds == [Refund(0, None, RefundStatus.Pending, row.money.total, row.currency)]
  {
    hide Run, RunTo;
    var captured, s0 := ReachCaptured(fsm, row, provider, key, intent, captureId, now);
    var cancelled, s1 := ReachCancelled(fsm, captured, s0);
    trace, s := ReachAccepted(fsm, cancelled, s1, 2, ref);
  }

  lemma ReachAttached(fsm: set<Edge>, before: seq<State>, s: State, w: nat, ref: string) returns (trace: seq<State>)
    requires RunTo(fsm, before, s) && w in s.workers && s.workers[w] == RefundAccepted(0, ref) && |s.db.refunds| == 1
    ensures RunTo(fsm, trace, Stop(s.(db := s.db.(refunds := [s.db.refunds[0].(providerRef := Some(ref))])), w))
  {
    hide Next, RunTo;
    RefundSteps(fsm, s, w, ref);
    assert AttachRefundRef(s.db, 0, ref).value.refunds == [s.db.refunds[0].(providerRef := Some(ref))];
    trace := Extend(fsm, before, s, AttachRefund(w), Stop(s.(db := AttachRefundRef(s.db, 0, ref).value), w));
  }
}
