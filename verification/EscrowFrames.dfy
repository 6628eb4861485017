/**
 * Who writes what: for every table, the only steps that can change it, and for every
 * step, the only worker it can move and where to. Properties of a table or of a kind
 * of job need to look at no other step.
 */
module EscrowFrames {
  import opened BookingFsm
  import opened Bookings
  import opened EscrowTables
  import opened EscrowProtocol

  /** The steps that are no worker's. */
  predicate Workerless(step: Step) {
    || step.Tick? || step.SetBlocks? || step.PlaceHold? || step.Expire? || step.ConfirmDirectly? || step.Initiate? || step.Attach?
    || step.SettleByProvider? || step.AdminHold? || step.AdminRelease? || step.AdminRetry? || step.AdminAdjust?
  }

  predicate By(step: Step, w: nat) {
    !Workerless(step) && step.w == w
  }

  predicate WritesPayments(step: Step) {
    step.Initiate? || step.Attach? || step.CaptureTx? || step.FailureTx? || step.RefundTx?
  }

  predicate WritesRefunds(step: Step) {
    step.RefundTx? || step.InsertRefundRow? || step.AttachRefund?
  }

  predicate WritesPayouts(step: Step) {
    || step.Split? || step.InTransitSwap? || step.SettleMock? || step.FailPayout? || step.SettleByProvider?
    || step.AdminHold? || step.AdminRelease? || step.AdminRetry?
  }

  predicate WritesEvents(step: Step) {
    step.Intake? || step.Claim? || step.Finish? || step.Skip? || step.Fail?
  }

  /** The steps that can post to the ledger. */
  predicate Posts(step: Step) {
    step.CaptureTx? || step.RefundTx? || step.Split? || step.SettleMock? || step.SettleByProvider? || step.AdminAdjust?
  }

  predicate AsksProvider(step: Step) {
    step.Transfer? || step.TransferResponseLost?
  }

  ghost predicate TablesFrame(s: State, s': State, step: Step) {
    && (!WritesPayments(step) ==> s'.db.payments == s.db.payments)
    && (!WritesRefunds(step) ==> s'.db.refunds == s.db.refunds)
    && (!step.InsertRefundRow? ==> |s'.db.refunds| == |s.db.refunds|)
    && (!WritesPayouts(step) ==> s'.db.payouts == s.db.payouts)
    && (!WritesEvents(step) ==> s'.db.events == s.db.events)
    && (!Posts(step) ==> s'.db.ledger == s.db.ledger)
    && (!step.AdminAdjust? ==> s'.db.adjustments == s.db.adjustments)
    && (!AsksProvider(step) ==> s'.transfers == s.transfers)
  }

  predicate MovesBooking(worker: Worker) {
    worker.ReadyToCancel? || worker.CancelCommitted? || worker.ReadyToMove? || worker.CompletionCommitted?
  }

  predicate PaysOut(worker: Worker) {
    || worker.SawCompleted? || worker.FoundFunds? || worker.SplitCommitted? || worker.SawPayoutPending?
    || worker.TransferMade? || worker.PayoutMoving? || worker.TransferThrew?
  }

  predicate RefundsPayment(worker: Worker) {
    worker.FoundCaptured? || worker.NoRefundYet? || worker.RefundInserted? || worker.RefundAccepted?
  }

  predicate ReconcilesBooking(worker: Worker) {
    HandlesEvent(worker) && !worker.Claimed? && !worker.Finishing? && !worker.Skipping? && !worker.Failing?
  }

  /** Where a step can take its own worker: only a job's own steps lead to its program points. */
  predicate Reaches(s: State, step: Step, w: nat, worker: Worker) {
    && (MovesBooking(worker) ==> IsBookingStep(step))
    && (HandlesEvent(worker) ==> (IsInboxStep(step) || IsWebhookStep(step)) && (WritesEvents(step) || StaysWithEvent(s, w, worker)))
    && (ReconcilesBooking(worker) ==> IsWebhookStep(step))
    && (PaysOut(worker) ==> IsPayoutStep(step))
    && (RefundsPayment(worker) ==> IsRefundStep(step))
  }

  predicate StaysWithEvent(s: State, w: nat, worker: Worker) {
    w in s.workers && HandlesEvent(s.workers[w]) && HandlesEvent(worker) && worker.event == s.workers[w].event
  }

  ghost predicate OnlyItsWorker(s: State, s': State, step: Step) {
    if Workerless(step) then s'.workers == s.workers
    else if step.w !in s'.workers then s'.workers == s.workers - {step.w}
    else s'.workers == s.workers[step.w := s'.workers[step.w]]
  }

  ghost predicate Frame(s: State, s': State, step: Step) {
    && TablesFrame(s, s', step) && OnlyItsWorker(s, s', step)
    && (!Workerless(step) && step.w in s'.workers ==> Reaches(s, step, step.w, s'.workers[step.w]))
  }

  lemma BookingTables(fsm: set<Edge>, s: State, step: Step)
    requires IsBookingStep(step) && NextBooking(fsm, s, step).Some?
    ensures TablesFrame(s, NextBooking(fsm, s, step).value, step)
  {
    hide InsertHold, ExpireIfLapsed, ConfirmHold, Transition;
  }

  lemma BookingWorkers(fsm: set<Edge>, s: State, step: Step)
    requires IsBookingStep(step) && NextBooking(fsm, s, step).Some?
    ensures OnlyItsWorker(s, NextBooking(fsm, s, step).value, step)
    ensures !Workerless(step) && step.w in NextBooking(fsm, s, step).value.workers ==>
      Reaches(s, step, step.w, NextBooking(fsm, s, step).value.workers[step.w])
  {
    hide InsertHold, ExpireIfLapsed, ConfirmHold, Transition;
  }

  lemma InboxTables(s: State, step: Step)
    requires IsInboxStep(step) && NextInbox(s, step).Some?
    ensures TablesFrame(s, NextInbox(s, step).value, step)
  {
    hide InsertPayment, AttachIntent, RecordEvent, ClaimEvent, MarkEvent;
  }

  lemma InboxWorkers(s: State, step: Step)
    requires IsInboxStep(step) && NextInbox(s, step).Some?
    ensures OnlyItsWorker(s, NextInbox(s, step).value, step)
    ensures !Workerless(step) && step.w in NextInbox(s, step).value.workers ==>
      Reaches(s, step, step.w, NextInbox(s, step).value.workers[step.w])
  {
    hide InsertPayment, AttachIntent, RecordEvent, ClaimEvent, MarkEvent;
  }

  lemma WebhookTables(fsm: set<Edge>, s: State, step: Step)
    requires IsWebhookStep(step) && NextWebhook(fsm, s, step).Some?
    ensures TablesFrame(s, NextWebhook(fsm, s, step).value, step)
  {
    hide ApplyCapture, ApplyFailure, ApplyRefund, ConfirmHold, Transition, NamedPayment;
  }

  lemma WebhookWorkers(fsm: set<Edge>, s: State, step: Step)
    requires IsWebhookStep(step) && NextWebhook(fsm, s, step).Some?
    ensures OnlyItsWorker(s, NextWebhook(fsm, s, step).value, step)
  {
    hide ApplyCapture, ApplyFailure, ApplyRefund, ConfirmHold, Transition, NamedPayment;
  }

  lemma WebhookReaches(fsm: set<Edge>, s: State, step: Step)
    requires IsWebhookStep(step) && NextWebhook(fsm, s, step).Some?
    ensures !Workerless(step) && step.w in NextWebhook(fsm, s, step).value.workers ==>
      Reaches(s, step, step.w, NextWebhook(fsm, s, step).value.workers[step.w])
  {
    hide ApplyCapture, ApplyFailure, ApplyRefund, ConfirmHold, Transition, NamedPayment;
  }

  lemma PayoutTables(s: State, step: Step)
    requires IsPayoutStep(step) && NextPayout(s, step).Some?
    ensures TablesFrame(s, NextPayout(s, step).value, step)
  {
    hide SplitEscrow, CapturedForBooking, SettlePayout, MarkInTransit, MarkPayoutFailed, Adjust, HoldPayout, ReleasePayout, RetryPayout;
  }

  lemma PayoutWorkers(s: State, step: Step)
    requires IsPayoutStep(step) && NextPayout(s, step).Some?
    ensures OnlyItsWorker(s, NextPayout(s, step).value, step)
  {
    hide SplitEscrow, CapturedForBooking, SettlePayout, MarkInTransit, MarkPayoutFailed, Adjust, HoldPayout, ReleasePayout, RetryPayout;
  }

  lemma PayoutReaches(s: State, step: Step)
    requires IsPayoutStep(step) && NextPayout(s, step).Some?
    ensures !Workerless(step) && step.w in NextPayout(s, step).value.workers ==>
      Reaches(s, step, step.w, NextPayout(s, step).value.workers[step.w])
  {
    hide SplitEscrow, CapturedForBooking, SettlePayout, MarkInTransit, MarkPayoutFailed, Adjust, HoldPayout, ReleasePayout, RetryPayout;
  }

  lemma RefundTables(s: State, step: Step)
    requires IsRefundStep(step) && NextRefund(s, step).Some?
    ensures TablesFrame(s, NextRefund(s, step).value, step)
  {
    hide CapturedForBooking, HasLiveRefund, InsertRefund, AttachRefundRef;
  }

  lemma RefundWorkers(s: State, step: Step)
    requires IsRefundStep(step) && NextRefund(s, step).Some?
    ensures OnlyItsWorker(s, NextRefund(s, step).value, step)
    ensures !Workerless(step) && step.w in NextRefund(s, step).value.workers ==>
      Reaches(s, step, step.w, NextRefund(s, step).value.workers[step.w])
  {
    hide CapturedForBooking, HasLiveRefund, InsertRefund, AttachRefundRef;
  }

  /** Every step of the machine writes only its own tables and moves only its own worker. */
  lemma StepFrames(fsm: set<Edge>, s: State, step: Step)
    requires Next(fsm, s, step).Some?
    ensures Frame(s, Next(fsm, s, step).value, step)
  {
    hide TablesFrame, OnlyItsWorker, NextBooking, NextInbox, NextWebhook, NextPayout, NextRefund;
    hide Reaches;
    if IsBookingStep(step) {
      BookingTables(fsm, s, step);
      BookingWorkers(fsm, s, step);
    } else if IsInboxStep(step) {
      InboxTables(s, step);
      InboxWorkers(s, step);
    } else if IsWebhookStep(step) {
      WebhookTables(fsm, s, step);
      WebhookWorkers(fsm, s, step);
      WebhookReaches(fsm, s, step);
    } else if IsPayoutStep(step) {
      PayoutTables(s, step);
      PayoutWorkers(s, step);
      PayoutReaches(s, step);
    } else if IsRefundStep(step) {
      RefundTables(s, step);
      RefundWorkers(s, step);
    } else {
      EnvironmentFrames(s, step);
    }
  }

  lemma EnvironmentFrames(s: State, step: Step)
    requires step.Tick? || step.Crash? || step.SetBlocks?
    ensures Frame(s, NextEnvironment(s, step).value, step)
  {
  }

  /** The worker found after a step either has not moved, or the step took it where its job can go. */
  lemma WorkerOrigin(s: State, s': State, step: Step, w: nat)
    requires Frame(s, s', step) && w in s'.workers
    ensures (w in s.workers && s'.workers[w] == s.workers[w]) || (By(step, w) && Reaches(s, step, w, s'.workers[w]))
  {
    hide TablesFrame, Workerless, Reaches;
  }
}
