/**
 * Properties of the escrow machine's concurrent processes: who is working on an
 * event, what the provider was asked to pay, and how many refunds are requested.
 */
module EscrowProcesses {
  import opened Common
  import opened BookingFsm
  import opened Bookings
  import opened Ledger
  import opened EscrowTables
  import opened EscrowProtocol
  import opened EscrowFrames
  import opened EscrowTheorems

  // ---- at most one worker applies an event ----

  /** A worker inside an event holds it in PROCESSING, and no other worker is inside the same event. */
  ghost predicate ClaimsExclusive(s: State) {
    && (forall w :: w in s.workers && HandlesEvent(s.workers[w]) ==>
          s.workers[w].event < |s.db.events| && s.db.events[s.workers[w].event].status == WebhookStatus.Processing)
    && (forall v, w :: v in s.workers && w in s.workers && v != w && HandlesEvent(s.workers[v]) && HandlesEvent(s.workers[w]) ==>
          s.workers[v].event != s.workers[w].event)
  }

  /** A step that leaves the inbox alone moves no worker to another event. */
  lemma InboxUntouched(s: State, s': State, step: Step)
    requires ClaimsExclusive(s) && Frame(s, s', step) && !WritesEvents(step)
    ensures ClaimsExclusive(s')
  {
    hide ClaimsExclusive;
    forall w | w in s'.workers && HandlesEvent(s'.workers[w]) ensures SameEvent(s, s', w) {
      StaysInside(s, s', step, w);
    }
    SameClaims(s, s');
  }

  predicate SameEvent(s: State, s': State, w: nat)
    requires w in s'.workers && HandlesEvent(s'.workers[w])
  {
    w in s.workers && HandlesEvent(s.workers[w]) && s.workers[w].event == s'.workers[w].event
  }

  lemma StaysInside(s: State, s': State, step: Step, w: nat)
    requires Frame(s, s', step) && !WritesEvents(step) && w in s'.workers && HandlesEvent(s'.workers[w])
    ensures SameEvent(s, s', w)
  {
    hide IsBookingStep, IsInboxStep, IsWebhookStep, IsPayoutStep, IsRefundStep, Workerless, OnlyItsWorker, WritesEvents, HandlesEvent;
    WorkerOrigin(s, s', step, w);
  }

  lemma SameClaims(s: State, s': State)
    requires ClaimsExclusive(s) && s'.db.events == s.db.events
    requires forall w :: w in s'.workers && HandlesEvent(s'.workers[w]) ==> SameEvent(s, s', w)
    ensures ClaimsExclusive(s')
  {
  }

  lemma InboxWriteKeepsClaims(s: State, step: Step)
    requires ClaimsExclusive(s) && WritesEvents(step) && NextInbox(s, step).Some?
    ensures ClaimsExclusive(NextInbox(s, step).value)
  {
    hide ClaimsExclusive;
    var id :=
      if step.Intake? then |s.db.events| else if step.Claim? then step.id else s.workers[step.w].event;
    ClaimWrites(s, NextInbox(s, step).value, step.w, id);
  }

  /** One inbox row changes or appears, and nobody but the moving worker was inside it. */
  lemma ClaimWrites(s: State, s': State, w: nat, id: nat)
    requires ClaimsExclusive(s)
    requires |s.db.events| <= |s'.db.events|
    requires forall i :: 0 <= i < |s.db.events| && i != id ==> s'.db.events[i] == s.db.events[i]
    requires forall v :: v in s'.workers && v != w ==> v in s.workers && s'.workers[v] == s.workers[v]
    requires
      || (w in s.workers && HandlesEvent(s.workers[w]) && s.workers[w].event == id)
      || (id < |s.db.events| && s.db.events[id].status != WebhookStatus.Processing)
      || id == |s.db.events|
    requires w in s'.workers && HandlesEvent(s'.workers[w]) ==>
      s'.workers[w].event == id < |s'.db.events| && s'.db.events[id].status == WebhookStatus.Processing
    requires id == |s.db.events| ==> w !in s'.workers || !HandlesEvent(s'.workers[w])
    ensures ClaimsExclusive(s')
  {
  }

  lemma StepKeepsClaims(fsm: set<Edge>, s: State, step: Step)
    requires ClaimsExclusive(s) && Next(fsm, s, step).Some?
    ensures ClaimsExclusive(Next(fsm, s, step).value)
  {
    hide ClaimsExclusive, Frame, NextInbox, NextBooking, NextWebhook, NextPayout, NextRefund, NextEnvironment;
    if WritesEvents(step) {
      InboxWriteKeepsClaims(s, step);
    } else {
      StepFrames(fsm, s, step);
      InboxUntouched(s, Next(fsm, s, step).value, step);
    }
  }

  /** However often an event's job is delivered, at most one worker at a time is applying it. */
  lemma {:induction false} OneWorkerPerEvent(fsm: set<Edge>, trace: seq<State>, i: nat)
    requires Run(fsm, trace) && i < |trace|
    ensures ClaimsExclusive(trace[i])
    decreases i
  {
    if i > 0 {
      OneWorkerPerEvent(fsm, trace, i - 1);
      assert Follows(fsm, trace[i - 1], trace[i]);
      hide ClaimsExclusive, Next;
      var step :| Next(fsm, trace[i - 1], step) == Some(trace[i]);
      StepKeepsClaims(fsm, trace[i - 1], step);
    }
  }

  // ---- what the provider was asked to transfer ----

  /**
   * The payouts agree with the provider's own record: a payout in transit or paid
   * carries the reference of the one transfer the provider made for it.
   */
  ghost predicate TransfersAgree(s: State) {
    && (forall q :: q in s.transfers ==> q < |s.db.payouts|)
    && (forall q :: 0 <= q < |s.db.payouts| ==> PayoutAgrees(s, q))
    && (forall w :: w in s.workers ==> WorkerAgrees(s, s.workers[w]))
  }

  predicate PayoutAgrees(s: State, q: nat)
    requires q < |s.db.payouts|
  {
    var p := s.db.payouts[q];
    && (p.transfer.Some? ==> q in s.transfers && s.transfers[q] == p.transfer.value)
    && (p.status in {PayoutStatus.InTransit, PayoutStatus.Paid} ==> p.transfer.Some?)
  }

  predicate WorkerAgrees(s: State, worker: Worker) {
    && (worker.SawPayoutPending? ==> worker.payout < |s.db.payouts|)
    && (worker.TransferMade? ==> worker.payout in s.transfers && s.transfers[worker.payout] == worker.transfer)
  }

  /** A step of another job neither touches payouts nor reaches the provider. */
  lemma TransfersUntouched(s: State, s': State, step: Step)
    requires TransfersAgree(s) && Frame(s, s', step) && !IsPayoutStep(step)
    ensures TransfersAgree(s')
  {
    assert !WritesPayouts(step) && !AsksProvider(step);
    hide IsBookingStep, IsInboxStep, IsWebhookStep, IsPayoutStep, IsRefundStep, Workerless, OnlyItsWorker, WritesPayouts, AsksProvider;
    forall q | 0 <= q < |s'.db.payouts| ensures PayoutAgrees(s', q) {
      assert PayoutAgrees(s, q);
    }
    forall v | v in s'.workers ensures WorkerAgrees(s', s'.workers[v]) {
      WorkerOrigin(s, s', step, v);
      if v in s.workers {
        assert WorkerAgrees(s, s.workers[v]);
      }
    }
  }

  /** A step that writes one payout row, new or old, or lets the provider record one transfer. */
  lemma TransfersWritten(s: State, s': State, w: nat, q: nat)
    requires TransfersAgree(s) && |s.db.payouts| <= |s'.db.payouts|
    requires forall k :: 0 <= k < |s'.db.payouts| && k != q ==> k < |s.db.payouts| && s'.db.payouts[k] == s.db.payouts[k]
    requires q < |s'.db.payouts| ==> PayoutAgrees(s', q)
    requires forall k :: k in s.transfers ==> k in s'.transfers && s'.transfers[k] == s.transfers[k]
    requires forall k :: k in s'.transfers ==> k in s.transfers || k == q < |s.db.payouts|
    requires forall v :: v in s'.workers && v != w ==> v in s.workers && s'.workers[v] == s.workers[v]
    requires w in s'.workers ==> WorkerAgrees(s', s'.workers[w])
    ensures TransfersAgree(s')
  {
    forall k | 0 <= k < |s'.db.payouts| ensures PayoutAgrees(s', k) {
      if k != q {
        var row := s'.db.payouts[k];
        assert k < |s.db.payouts| && row == s.db.payouts[k];
        assert PayoutAgrees(s, k);
      }
    }
    forall v | v in s'.workers ensures WorkerAgrees(s', s'.workers[v]) {
      if v != w {
        assert WorkerAgrees(s, s.workers[v]);
      }
    }
  }

  lemma ProviderKeepsTransfers(s: State, step: Step)
    requires TransfersAgree(s) && (step.Transfer? || step.TransferResponseLost?) && NextPayout(s, step).Some?
    ensures TransfersAgree(NextPayout(s, step).value)
  {
    var q := s.workers[step.w].payout;
    assert WorkerAgrees(s, s.workers[step.w]);
    assert PayoutAgrees(s, q);
    hide TransfersAgree;
    TransfersWritten(s, NextPayout(s, step).value, step.w, q);
  }

  lemma SplitKeepsTransfers(s: State, w: nat)
    requires TransfersAgree(s) && NextPayout(s, Split(w)).Some?
    ensures TransfersAgree(NextPayout(s, Split(w)).value)
  {
    hide TransfersAgree;
    TransfersWritten(s, NextPayout(s, Split(w)).value, w, |s.db.payouts|);
  }

  lemma SwapKeepsTransfers(s: State, step: Step, q: nat)
    requires TransfersAgree(s) && NextPayout.requires(s, step) && NextPayout(s, step).Some?
    requires step.InTransitSwap? || step.SettleMock? || step.FailPayout?
    requires step.w in s.workers
    requires s.workers[step.w].TransferMade? || s.workers[step.w].PayoutMoving? || s.workers[step.w].TransferThrew?
    requires q == s.workers[step.w].payout
    ensures TransfersAgree(NextPayout(s, step).value)
  {
    if q < |s.db.payouts| {
      assert PayoutAgrees(s, q);
    }
    assert WorkerAgrees(s, s.workers[step.w]);
    hide TransfersAgree;
    TransfersWritten(s, NextPayout(s, step).value, step.w, q);
  }

  lemma AdminKeepsTransfers(s: State, step: Step)
    requires TransfersAgree(s) && (step.SettleByProvider? || step.AdminHold? || step.AdminRelease? || step.AdminRetry?)
    requires NextPayout(s, step).Some?
    ensures TransfersAgree(NextPayout(s, step).value)
  {
    if step.q < |s.db.payouts| {
      assert PayoutAgrees(s, step.q);
    }
    if 0 in s.workers {
      assert WorkerAgrees(s, s.workers[0]);
    }
    hide TransfersAgree;
    TransfersWritten(s, NextPayout(s, step).value, 0, step.q);
  }

  lemma PayoutReadKeepsTransfers(s: State, step: Step)
    requires TransfersAgree(s) && IsPayoutStep(step) && !WritesPayouts(step) && !AsksProvider(step) && NextPayout(s, step).Some?
    ensures TransfersAgree(NextPayout(s, step).value)
  {
    hide TransfersAgree, CapturedForBooking, Adjust;
    var w := if step.AdminAdjust? then 0 else step.w;
    assert w in s.workers ==> WorkerAgrees(s, s.workers[w]) by {
      AllWorkersAgree(s);
    }
    TransfersWritten(s, NextPayout(s, step).value, w, |s.db.payouts|);
  }

  lemma AllWorkersAgree(s: State)
    requires TransfersAgree(s)
    ensures forall w :: w in s.workers ==> WorkerAgrees(s, s.workers[w])
  {
  }

  lemma PayoutKeepsTransfers(s: State, step: Step)
    requires TransfersAgree(s) && IsPayoutStep(step) && NextPayout(s, step).Some?
    ensures TransfersAgree(NextPayout(s, step).value)
  {
    hide TransfersAgree, SplitEscrow, SettlePayout, Adjust, MarkInTransit, MarkPayoutFailed, HoldPayout, ReleasePayout, RetryPayout;
    if step.Transfer? || step.TransferResponseLost? {
      ProviderKeepsTransfers(s, step);
    } else if step.Split? {
      SplitKeepsTransfers(s, step.w);
    } else if step.InTransitSwap? || step.SettleMock? || step.FailPayout? {
      SwapKeepsTransfers(s, step, s.workers[step.w].payout);
    } else if step.SettleByProvider? || step.AdminHold? || step.AdminRelease? || step.AdminRetry? {
      AdminKeepsTransfers(s, step);
    } else {
      PayoutReadKeepsTransfers(s, step);
    }
  }

  lemma StepKeepsTransfers(fsm: set<Edge>, s: State, step: Step)
    requires TransfersAgree(s) && Next(fsm, s, step).Some?
    ensures TransfersAgree(Next(fsm, s, step).value)
  {
    hide TransfersAgree, Frame, NextInbox, NextBooking, NextWebhook, NextPayout, NextRefund, NextEnvironment;
    if IsPayoutStep(step) {
      PayoutKeepsTransfers(s, step);
    } else {
      StepFrames(fsm, s, step);
      TransfersUntouched(s, Next(fsm, s, step).value, step);
    }
  }

  lemma {:induction false} TransfersAlwaysAgree(fsm: set<Edge>, trace: seq<State>, i: nat)
    requires Run(fsm, trace) && i < |trace|
    ensures TransfersAgree(trace[i])
    decreases i
  {
    if i > 0 {
      TransfersAlwaysAgree(fsm, trace, i - 1);
      assert Follows(fsm, trace[i - 1], trace[i]);
      hide TransfersAgree, Next;
      var step :| Next(fsm, trace[i - 1], step) == Some(trace[i]);
      StepKeepsTransfers(fsm, trace[i - 1], step);
    }
  }

  /**
   * A payout is PAID in the tables, and debited in the ledger, only for a transfer
   * that the provider made for exactly this payout, and the reference it carries is
   * that transfer's.
   */
  lemma PaidWasTransferred(fsm: set<Edge>, trace: seq<State>, i: nat, q: nat)
    requires Run(fsm, trace) && i < |trace|
    requires Measure(trace[i].db.ledger, SettlePosts(q)) > 0
    ensures q < |trace[i].db.payouts| && q in trace[i].transfers
    ensures trace[i].db.payouts[q].transfer == Some(trace[i].transfers[q])
  {
    PostedExactlyOnce(fsm, trace, i, q);
    TransfersAlwaysAgree(fsm, trace, i);
    assert PayoutAgrees(trace[i], q);
  }

  // ---- where a worker past its capture transaction comes from ----

  predicate AfterCapture(worker: Worker) {
    worker.CaptureApplied? || worker.SawPending? || worker.ReadyToConfirm?
  }

  /** The same event, booking and payment, at whichever point after the capture. */
  predicate SameCapture(worker: Worker, worker': Worker) {
    && AfterCapture(worker) && AfterCapture(worker')
    && worker'.event == worker.event && worker'.booking == worker.booking && worker'.payment == worker.payment
  }

  /** The step is the committed capture transaction that brought the worker to this point. */
  ghost predicate CapturedBy(fsm: set<Edge>, s: State, w: nat, worker': Worker) {
    && AfterCapture(worker') && At(s, w) == Some(Claimed(worker'.event)) && worker'.event < |s.db.events|
    && Next(fsm, s, CaptureTx(w)).Some? && s.db.events[worker'.event].kind == PaymentCaptured
    && ApplyCapture(s.db, s.db.events[worker'.event]).Committed?
    && ApplyCapture(s.db, s.db.events[worker'.event]).value == worker'.booking
    && NamedPayment(s.db, s.db.events[worker'.event]) == worker'.payment
  }

  lemma CaptureTxOrigin(fsm: set<Edge>, s: State, w: nat)
    requires NextWebhook(fsm, s, CaptureTx(w)).Some?
    requires w in NextWebhook(fsm, s, CaptureTx(w)).value.workers && AfterCapture(NextWebhook(fsm, s, CaptureTx(w)).value.workers[w])
    ensures CapturedBy(fsm, s, w, NextWebhook(fsm, s, CaptureTx(w)).value.workers[w])
  {
    hide ApplyCapture, NamedPayment;
  }

  lemma LaterCaptureStep(fsm: set<Edge>, s: State, step: Step)
    requires IsWebhookStep(step) && !step.CaptureTx? && NextWebhook(fsm, s, step).Some?
    requires step.w in NextWebhook(fsm, s, step).value.workers && AfterCapture(NextWebhook(fsm, s, step).value.workers[step.w])
    ensures step.w in s.workers && SameCapture(s.workers[step.w], NextWebhook(fsm, s, step).value.workers[step.w])
  {
    hide ApplyFailure, ApplyRefund, ConfirmHold, Transition;
  }

  lemma WebhookCaptureStep(fsm: set<Edge>, s: State, step: Step, w: nat)
    requires IsWebhookStep(step) && NextWebhook(fsm, s, step).Some?
    requires w in NextWebhook(fsm, s, step).value.workers && AfterCapture(NextWebhook(fsm, s, step).value.workers[w])
    ensures
      var worker' := NextWebhook(fsm, s, step).value.workers[w];
      || (w in s.workers && SameCapture(s.workers[w], worker'))
      || (step == CaptureTx(w) && CapturedBy(fsm, s, w, worker'))
  {
    hide NextWebhook, CapturedBy;
    if w != step.w {
      WebhookWorkers(fsm, s, step);
    } else if step.CaptureTx? {
      CaptureTxOrigin(fsm, s, w);
    } else {
      LaterCaptureStep(fsm, s, step);
    }
  }

  lemma CaptureStepOf(fsm: set<Edge>, s: State, step: Step, w: nat)
    requires Next(fsm, s, step).Some?
    requires w in Next(fsm, s, step).value.workers && AfterCapture(Next(fsm, s, step).value.workers[w])
    ensures
      var worker' := Next(fsm, s, step).value.workers[w];
      || (w in s.workers && SameCapture(s.workers[w], worker'))
      || (step == CaptureTx(w) && CapturedBy(fsm, s, w, worker'))
  {
    hide CapturedBy, Frame, NextBooking, NextInbox, NextWebhook, NextPayout, NextRefund, NextEnvironment;
    if IsWebhookStep(step) {
      WebhookCaptureStep(fsm, s, step, w);
    } else {
      StepFrames(fsm, s, step);
      OutsideCapture(s, Next(fsm, s, step).value, step, w);
    }
  }

  /** No other step brings a worker past a capture. */
  lemma OutsideCapture(s: State, s': State, step: Step, w: nat)
    requires Frame(s, s', step) && !IsWebhookStep(step) && w in s'.workers && AfterCapture(s'.workers[w])
    ensures w in s.workers && s'.workers[w] == s.workers[w]
  {
    hide IsBookingStep, IsInboxStep, IsWebhookStep, IsPayoutStep, IsRefundStep, Workerless, OnlyItsWorker, WritesEvents;
    WorkerOrigin(s, s', step, w);
  }

  lemma CaptureStepInto(fsm: set<Edge>, trace: seq<State>, j: nat, w: nat)
    requires Run(fsm, trace) && j < |trace| && w in trace[j].workers && AfterCapture(trace[j].workers[w])
    ensures j > 0
    ensures
      || (w in trace[j - 1].workers && SameCapture(trace[j - 1].workers[w], trace[j].workers[w]))
      || (CapturedBy(fsm, trace[j - 1], w, trace[j].workers[w]) && Next(fsm, trace[j - 1], CaptureTx(w)) == Some(trace[j]))
  {
    assert j > 0;
    hide CapturedBy, Next, Run, AfterCapture, SameCapture;
    var step := StepInto(fsm, trace, j);
    CaptureStepOf(fsm, trace[j - 1], step, w);
  }

  /** In every run, a worker past the capture got there by a capture transaction that committed, for that event and payment. */
  lemma {:induction false} CaptureOrigin(fsm: set<Edge>, trace: seq<State>, j: nat, w: nat) returns (i: nat)
    requires Run(fsm, trace) && j < |trace| && w in trace[j].workers && AfterCapture(trace[j].workers[w])
    ensures i < j && CapturedBy(fsm, trace[i], w, trace[j].workers[w]) && Next(fsm, trace[i], CaptureTx(w)) == Some(trace[i + 1])
    decreases j
  {
    hide CapturedBy, Next, Run;
    CaptureStepInto(fsm, trace, j, w);
    if CapturedBy(fsm, trace[j - 1], w, trace[j].workers[w]) && Next(fsm, trace[j - 1], CaptureTx(w)) == Some(trace[j]) {
      i := j - 1;
    } else {
      i := CaptureOrigin(fsm, trace, j - 1, w);
      CapturedBySame(fsm, trace[i], w, trace[j - 1].workers[w], trace[j].workers[w]);
    }
  }

  lemma CapturedBySame(fsm: set<Edge>, s: State, w: nat, worker: Worker, worker': Worker)
    requires CapturedBy(fsm, s, w, worker) && SameCapture(worker, worker')
    ensures CapturedBy(fsm, s, w, worker')
  {
  }
}
