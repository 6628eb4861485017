/**
 * What becomes of a provider's refund event: in every run a processed one went through
 * exactly the refund transaction, and whether that recorded the money is decided by
 * whether a pending row carried the event's reference when it ran.
 */
module EscrowRefundEvents {
  import opened Common
  import opened BookingFsm
  import opened Bookings
  import opened Ledger
  import opened EscrowTables
  import opened EscrowInvariant
  import opened EscrowProtocol
  import opened EscrowFrames
  import opened EscrowSteps
  import opened EscrowSafety
  import opened EscrowTheorems
  import opened EscrowRefunds

  // ---- events keep their content ----

  ghost predicate SameContent(e: Event, e': Event) {
    e' == e.(status := e'.status, attempts := e'.attempts)
  }

  /** An event's content never changes, and only the worker that is finishing it marks it PROCESSED. */
  ghost predicate EventKept(s: State, s': State, step: Step, e: nat)
    requires e < |s'.db.events|
  {
    && (e < |s.db.events| ==> SameContent(s.db.events[e], s'.db.events[e]))
    && (s'.db.events[e].status == WebhookStatus.Processed ==>
          e < |s.db.events|
          && (s.db.events[e].status == WebhookStatus.Processed || (step.Finish? && At(s, step.w) == Some(Finishing(e)))))
  }

  ghost predicate EventsKept(s: State, s': State, step: Step) {
    |s.db.events| <= |s'.db.events| && forall e :: 0 <= e < |s'.db.events| ==> EventKept(s, s', step, e)
  }

  lemma InboxKeepsEvents(s: State, step: Step)
    requires WritesEvents(step) && NextInbox(s, step).Some?
    ensures EventsKept(s, NextInbox(s, step).value, step)
  {
  }

  lemma EventsKeep(fsm: set<Edge>, s: State, step: Step)
    requires Next(fsm, s, step).Some?
    ensures EventsKept(s, Next(fsm, s, step).value, step)
  {
    hide NextBooking, NextInbox, NextWebhook, NextPayout, NextRefund, NextEnvironment;
    if WritesEvents(step) {
      hide EventsKept;
      InboxKeepsEvents(s, step);
    } else {
      StepFrames(fsm, s, step);
    }
  }

  // ---- each kind of event has its own path ----

  predicate OnCapturePath(worker: Worker) {
    worker.CaptureApplied? || worker.SawPending? || worker.ReadyToConfirm? || worker.ConfirmLost? || worker.HoldExpired?
  }

  predicate OnRefundPath(worker: Worker) {
    worker.RefundApplied? || worker.SawCancelled? || worker.ReadyToMarkRefunded?
  }

  predicate KindFits(kind: EventKind, worker: Worker) {
    (OnCapturePath(worker) ==> kind == PaymentCaptured) && (OnRefundPath(worker) ==> kind == RefundSucceeded)
  }

  ghost predicate KindsFit(s: State) {
    forall w :: w in s.workers && HandlesEvent(s.workers[w]) ==> WorkerFits(s, s.workers[w])
  }

  predicate WorkerFits(s: State, worker: Worker)
    requires HandlesEvent(worker)
  {
    worker.event < |s.db.events| && KindFits(s.db.events[worker.event].kind, worker)
  }

  /** The refund transaction is behind the worker, if its event is a refund event. */
  predicate PastRefundTx(worker: Worker) {
    OnRefundPath(worker) || worker.Finishing?
  }

  ghost predicate CommitsRefund(s: State, step: Step, w: nat, e: nat) {
    && step == RefundTx(w) && At(s, w) == Some(Claimed(e))
    && e < |s.db.events| && s.db.events[e].kind == RefundSucceeded && ApplyRefund(s.db, s.db.events[e]).Committed?
  }

  /** What a worker inside an event was before the step. */
  ghost predicate PathOf(s: State, step: Step, w: nat, worker': Worker)
    requires HandlesEvent(worker')
  {
    && worker'.event < |s.db.events| && KindFits(s.db.events[worker'.event].kind, worker')
    && (s.db.events[worker'.event].kind == RefundSucceeded && PastRefundTx(worker') ==>
          || (w in s.workers && PastRefundTx(s.workers[w]) && s.workers[w].event == worker'.event)
          || CommitsRefund(s, step, w, worker'.event))
  }

  lemma WebhookPath(fsm: set<Edge>, s: State, step: Step)
    requires KindsFit(s) && IsWebhookStep(step) && NextWebhook(fsm, s, step).Some?
    requires step.w in NextWebhook(fsm, s, step).value.workers && HandlesEvent(NextWebhook(fsm, s, step).value.workers[step.w])
    ensures PathOf(s, step, step.w, NextWebhook(fsm, s, step).value.workers[step.w])
  {
    hide NextWebhook, KindFits, PastRefundTx, CommitsRefund, HandlesEvent, WritesEvents;
    hide MovesBooking, PaysOut, RefundsPayment, ReconcilesBooking, IsBookingStep, IsInboxStep, IsPayoutStep, IsRefundStep;
    assert !WritesEvents(step) by {
      WebhookWritesNoEvent(step);
    }
    WebhookReaches(fsm, s, step);
    assert WorkerFits(s, s.workers[step.w]);
    WebhookMoves(fsm, s, step);
  }

  lemma WebhookWritesNoEvent(step: Step)
    requires IsWebhookStep(step)
    ensures !WritesEvents(step) && !Workerless(step)
  {
  }

  lemma WebhookMoves(fsm: set<Edge>, s: State, step: Step)
    requires IsWebhookStep(step) && NextWebhook(fsm, s, step).Some? && step.w in NextWebhook(fsm, s, step).value.workers
    requires step.w in s.workers && HandlesEvent(s.workers[step.w]) && WorkerFits(s, s.workers[step.w])
    ensures
      var e, worker' := s.workers[step.w].event, NextWebhook(fsm, s, step).value.workers[step.w];
      && KindFits(s.db.events[e].kind, worker')
      && (s.db.events[e].kind == RefundSucceeded && PastRefundTx(worker') ==>
            PastRefundTx(s.workers[step.w]) || CommitsRefund(s, step, step.w, e))
  {
    hide ApplyCapture, ApplyFailure, ApplyRefund, ConfirmHold, Transition, NamedPayment;
  }

  lemma InboxPath(s: State, step: Step)
    requires KindsFit(s) && IsInboxStep(step) && !Workerless(step) && NextInbox(s, step).Some?
    requires step.w in NextInbox(s, step).value.workers && HandlesEvent(NextInbox(s, step).value.workers[step.w])
    ensures PathOf(s, step, step.w, NextInbox(s, step).value.workers[step.w])
  {
    assert step.w in s.workers && HandlesEvent(s.workers[step.w]) ==> WorkerFits(s, s.workers[step.w]);
    hide KindsFit, InsertPayment, AttachIntent, RecordEvent, MarkEvent, CommitsRefund;
  }

  lemma WorkerPath(fsm: set<Edge>, s: State, step: Step, w: nat)
    requires KindsFit(s) && Next(fsm, s, step).Some?
    requires w in Next(fsm, s, step).value.workers && HandlesEvent(Next(fsm, s, step).value.workers[w])
    ensures PathOf(s, step, w, Next(fsm, s, step).value.workers[w])
  {
    hide KindsFit, PathOf, Frame, HandlesEvent, Workerless;
    hide NextBooking, NextInbox, NextWebhook, NextPayout, NextRefund, NextEnvironment;
    if By(step, w) && IsWebhookStep(step) {
      WebhookPath(fsm, s, step);
    } else if By(step, w) && IsInboxStep(step) {
      InboxPath(s, step);
    } else {
      StepFrames(fsm, s, step);
      OutsidePath(s, Next(fsm, s, step).value, step, w);
    }
  }

  lemma OutsidePath(s: State, s': State, step: Step, w: nat)
    requires KindsFit(s) && Frame(s, s', step) && w in s'.workers && HandlesEvent(s'.workers[w])
    requires !By(step, w) || (!IsInboxStep(step) && !IsWebhookStep(step))
    ensures PathOf(s, step, w, s'.workers[w])
  {
    assert w in s.workers && HandlesEvent(s.workers[w]) ==> WorkerFits(s, s.workers[w]);
    hide KindsFit, KindFits, CommitsRefund;
    hide IsBookingStep, IsInboxStep, IsWebhookStep, IsPayoutStep, IsRefundStep, Workerless, OnlyItsWorker, WritesEvents, HandlesEvent;
    WorkerOrigin(s, s', step, w);
  }

  lemma StepKeepsKinds(fsm: set<Edge>, s: State, step: Step)
    requires KindsFit(s) && Next(fsm, s, step).Some?
    ensures KindsFit(Next(fsm, s, step).value)
  {
    hide Next, KindFits, KindsFit;
    var s' := Next(fsm, s, step).value;
    EventsKeep(fsm, s, step);
    forall w | w in s'.workers && HandlesEvent(s'.workers[w]) ensures WorkerFits(s', s'.workers[w]) {
      WorkerPath(fsm, s, step, w);
      assert EventKept(s, s', step, s'.workers[w].event);
    }
    AllFit(s');
  }

  lemma AllFit(s: State)
    requires forall w :: w in s.workers && HandlesEvent(s.workers[w]) ==> WorkerFits(s, s.workers[w])
    ensures KindsFit(s)
  {
  }

  // ---- over runs ----

  lemma {:induction false} KindsAlwaysFit(fsm: set<Edge>, trace: seq<State>, j: nat)
    requires Run(fsm, trace) && j < |trace|
    ensures KindsFit(trace[j])
    decreases j
  {
    if j > 0 {
      hide KindsFit, Next, Run;
      KindsAlwaysFit(fsm, trace, j - 1);
      var step := StepInto(fsm, trace, j);
      StepKeepsKinds(fsm, trace[j - 1], step);
    }
  }

  /** The event is PROCESSED, or its worker has the refund transaction behind it. */
  ghost predicate Handled(s: State, e: nat) {
    && e < |s.db.events| && s.db.events[e].kind == RefundSucceeded
    && (s.db.events[e].status == WebhookStatus.Processed
        || exists w :: w in s.workers && PastRefundTx(s.workers[w]) && s.workers[w].event == e)
  }

  /** An event is handled only after being so before, or by the refund transaction of the worker that claimed it. */
  lemma HandledBefore(fsm: set<Edge>, s: State, step: Step, e: nat)
    requires KindsFit(s) && Next(fsm, s, step).Some? && Handled(Next(fsm, s, step).value, e)
    ensures Handled(s, e) || exists w :: CommitsRefund(s, step, w, e)
    ensures e < |s.db.events| && SameContent(s.db.events[e], Next(fsm, s, step).value.db.events[e])
  {
    hide Next, CommitsRefund;
    var s' := Next(fsm, s, step).value;
    EventsKeep(fsm, s, step);
    assert EventKept(s, s', step, e);
    if s'.db.events[e].status != WebhookStatus.Processed {
      var w :| w in s'.workers && PastRefundTx(s'.workers[w]) && s'.workers[w].event == e;
      WorkerPath(fsm, s, step, w);
    } else if s.db.events[e].status != WebhookStatus.Processed {
      assert PastRefundTx(s.workers[step.w]);
    }
  }

  /** Every refund event that is PROCESSED in a run went through a refund transaction that committed. */
  lemma {:induction false} RefundTxOf(fsm: set<Edge>, trace: seq<State>, j: nat, e: nat) returns (i: nat, w: nat)
    requires Run(fsm, trace) && j < |trace| && Handled(trace[j], e)
    ensures i < j && CommitsRefund(trace[i], RefundTx(w), w, e) && Next(fsm, trace[i], RefundTx(w)) == Some(trace[i + 1])
    ensures SameContent(trace[i].db.events[e], trace[j].db.events[e])
    decreases j
  {
    assert j > 0;
    hide Next, Run, KindsFit;
    KindsAlwaysFit(fsm, trace, j - 1);
    var step := StepInto(fsm, trace, j);
    HandledBefore(fsm, trace[j - 1], step, e);
    if Handled(trace[j - 1], e) {
      i, w := RefundTxOf(fsm, trace, j - 1, e);
    } else {
      i := j - 1;
      w :| CommitsRefund(trace[i], step, w, e);
    }
  }

  /** A pending refund of the payment carries the event's reference. */
  ghost predicate Awaited(db: Tables, p: nat, ref: string) {
    exists r :: 0 <= r < |db.refunds| && Awaits(db.refunds[r], p, ref)
  }

  /** The refund transaction gives the payment back in full if a pending row awaits it, and else changes nothing. */
  lemma RefundTxRecords(s: State, e: Event)
    requires RowsOk(s.db) && RefundsWhole(s) && ApplyRefund(s.db, e).Committed?
    ensures e.intent.Some? && e.refundRef.Some? && NamedPayment(s.db, e) < |s.db.payments|
    ensures
      var p, db' := NamedPayment(s.db, e), ApplyRefund(s.db, e).db;
      && p < |db'.payments| && 0 < s.db.payments[p].amount
      && (if Awaited(s.db, p, e.refundRef.value)
          then s.db.payments[p].refunded == 0 && db'.payments[p].refunded == s.db.payments[p].amount
          else db' == s.db)
  {
    var p := NamedPayment(s.db, e);
    RefundedInFullOrNot(s, p);
    assert PaymentOk(s.db, p);
    var r := PendingRefund(s.db.refunds, p, e.refundRef.value);
    if r.Some? {
      assert WholeRefund(s.db, r.value);
      assert SettleRefundRow(s.db, r.value).Wrote?;
    }
  }

  /** What the committed transaction of a run leaves in the books. */
  ghost predicate RecordsAwaited(db: Tables, db': Tables, p: nat, ref: string)
    requires p < |db.payments|
  {
    && (Awaited(db, p, ref) <==> Measure(db'.ledger, RefundCredits(p)) != Measure(db.ledger, RefundCredits(p)))
    && (Awaited(db, p, ref) ==> Measure(db'.ledger, RefundCredits(p)) == db.payments[p].amount)
    && (!Awaited(db, p, ref) ==> db' == db)
  }

  lemma RefundBooked(fsm: set<Edge>, trace: seq<State>, i: nat, w: nat, e: nat)
    requires Run(fsm, trace) && i + 1 < |trace| && CommitsRefund(trace[i], RefundTx(w), w, e)
    requires Next(fsm, trace[i], RefundTx(w)) == Some(trace[i + 1])
    ensures trace[i].db.events[e].refundRef.Some? && NamedPayment(trace[i].db, trace[i].db.events[e]) < |trace[i].db.payments|
    ensures
      var ev := trace[i].db.events[e];
      RecordsAwaited(trace[i].db, trace[i + 1].db, NamedPayment(trace[i].db, ev), ev.refundRef.value)
  {
    var s, s', ev := trace[i], trace[i + 1], trace[i].db.events[e];
    var p := NamedPayment(s.db, ev);
    RunStaysWhole(fsm, trace, i);
    RunInv(fsm, trace, i);
    hide Next, Run, RefundsWhole, NamedPayment, Awaited, ApplyRefund;
    RefundTxRecords(s, ev);
    hide RowsOk, Inv;
    TransactionSteps(fsm, s, w);
    assert s'.db == ApplyRefund(s.db, ev).db;
    RefundAccounting(fsm, trace, i, p);
    RefundAccounting(fsm, trace, i + 1, p);
  }

  /**
   * In every run, a refund event that is PROCESSED went through a committed refund
   * transaction, and that transaction recorded the money if and only if a pending
   * refund carried the event's reference when it ran. Otherwise it changed nothing:
   * the money was recorded before, or the event came before its reference was attached.
   */
  lemma RefundRecordedIff(fsm: set<Edge>, trace: seq<State>, j: nat, e: nat) returns (i: nat, w: nat)
    requires Run(fsm, trace) && j < |trace| && e < |trace[j].db.events|
    requires trace[j].db.events[e].kind == RefundSucceeded && trace[j].db.events[e].status == WebhookStatus.Processed
    ensures i < j && At(trace[i], w) == Some(Claimed(e)) && Next(fsm, trace[i], RefundTx(w)) == Some(trace[i + 1])
    ensures e < |trace[i].db.events| && SameContent(trace[i].db.events[e], trace[j].db.events[e])
    ensures
      var ev := trace[i].db.events[e];
      && ev.refundRef.Some? && NamedPayment(trace[i].db, ev) < |trace[i].db.payments|
      && RecordsAwaited(trace[i].db, trace[i + 1].db, NamedPayment(trace[i].db, ev), ev.refundRef.value)
  {
    hide Next, Run, NamedPayment, RecordsAwaited, SameContent;
    i, w := RefundTxOf(fsm, trace, j, e);
    RefundBooked(fsm, trace, i, w, e);
  }
}
