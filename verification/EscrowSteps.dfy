/**
 * What the steps of the machine do where they are enabled, one lemma per family, so
 * that a service method or a scenario can take a step without unfolding the machine.
 * Each lemma gives the state after the steps of its family, with every branch. They
 * carry the services' ghost traces; what can be said of a step without its branches,
 * which tables it writes and which worker it moves, is in `EscrowFrames`.
 */
module EscrowSteps {
  import opened Common
  import opened BookingFsm
  import opened Bookings
  import opened EscrowTables
  import opened EscrowProtocol

  // ---- environment ----

  lemma EnvironmentSteps(fsm: set<Edge>, s: State, w: nat, elapsed: nat)
    ensures Next(fsm, s, Crash(w)) == Some(Stop(s, w))
    ensures Next(fsm, s, Tick(elapsed)) == Some(s.(now := s.now + elapsed))
  {
    hide NextBooking, NextInbox, NextWebhook, NextPayout, NextRefund;
  }

  // ---- bookings ----

  lemma HoldSteps(fsm: set<Edge>, s: State, row: Booking, b: nat)
    ensures
      var r := InsertHold(s.db.bookings, s.db.blocks, row, s.now);
      r.Wrote? ==> Next(fsm, s, PlaceHold(row)) == Some(WithBookings(s, r.value))
    ensures
      var r := ConfirmHold(s.db.bookings, s.db.blocks, fsm, b, s.now);
      r.Wrote? ==> Next(fsm, s, ConfirmDirectly(b)) == Some(WithBookings(s, r.value))
    ensures
      var r := ExpireIfLapsed(s.db.bookings, s.db.blocks, fsm, b, s.now);
      r.Wrote? ==> Next(fsm, s, Expire(b)) == Some(WithBookings(s, r.value))
  {
    hide InsertHold, ConfirmHold, ExpireIfLapsed, Transition;
  }

  lemma CancelSteps(fsm: set<Edge>, s: State, w: nat, b: nat)
    ensures w !in s.workers && b < |s.db.bookings| && (s.db.bookings[b].status, Status.Cancelled) in fsm ==>
      Next(fsm, s, StartCancel(w, b)) == Some(Goto(s, w, ReadyToCancel(b, s.db.bookings[b].status)))
    ensures w in s.workers && s.workers[w].ReadyToCancel? ==>
      var b := s.workers[w].booking;
      var r := Transition(s.db.bookings, s.db.blocks, fsm, b, s.workers[w].from, Status.Cancelled, s.now);
      Next(fsm, s, CancelSwap(w)) == Some(if r.Wrote? then Goto(WithBookings(s, r.value), w, CancelCommitted(b)) else Stop(s, w))
    ensures w in s.workers && s.workers[w].CancelCommitted? ==>
      Next(fsm, s, CancelEnqueue(w)) == Some(Stop(Enqueue(s, CreateRefund(s.workers[w].booking)), w))
  {
    hide InsertHold, ConfirmHold, ExpireIfLapsed, Transition;
  }

  lemma MoveSteps(fsm: set<Edge>, s: State, w: nat, b: nat, to: Status)
    ensures w !in s.workers && b < |s.db.bookings| && to in {CheckedIn, Completed} && (s.db.bookings[b].status, to) in fsm ==>
      Next(fsm, s, StartMove(w, b, to)) == Some(Goto(s, w, ReadyToMove(b, s.db.bookings[b].status, to)))
    ensures w in s.workers && s.workers[w].ReadyToMove? ==>
      var b, to := s.workers[w].booking, s.workers[w].to;
      var r := Transition(s.db.bookings, s.db.blocks, fsm, b, s.workers[w].from, to, s.now);
      Next(fsm, s, MoveSwap(w)) ==
      Some(if r.Wrote? && to == Completed then Goto(WithBookings(s, r.value), w, CompletionCommitted(b))
           else if r.Wrote? then Stop(WithBookings(s, r.value), w) else Stop(s, w))
    ensures w in s.workers && s.workers[w].CompletionCommitted? ==>
      Next(fsm, s, CompleteEnqueue(w)) == Some(Stop(Enqueue(s, CreatePayout(s.workers[w].booking)), w))
  {
    hide InsertHold, ConfirmHold, ExpireIfLapsed, Transition;
  }

  // ---- payment initiation and the inbox ----

  lemma InitiationSteps(fsm: set<Edge>, s: State, b: nat, provider: Provider, key: string, p: nat, intent: string)
    ensures
      b < |s.db.bookings| ==>
        var r := InsertPayment(s.db, b, provider, key, s.db.bookings[b].money.total, s.db.bookings[b].currency);
        r.Wrote? ==> Next(fsm, s, Initiate(b, provider, key)) == Some(s.(db := r.value))
    ensures
      var r := AttachIntent(s.db, p, intent);
      r.Wrote? ==> Next(fsm, s, Attach(p, intent)) == Some(s.(db := r.value))
  {
    hide NextBooking, NextWebhook, NextPayout, NextRefund, NextEnvironment, InsertPayment, AttachIntent;
  }

  lemma DeliverySteps(fsm: set<Edge>, s: State, w: nat, e: Event, signatureValid: bool, id: nat)
    ensures
      var r := RecordEvent(s.db, e, signatureValid);
      w !in s.workers && r.Wrote? ==>
        Next(fsm, s, Intake(w, e, signatureValid)) ==
        Some(if signatureValid then Goto(s.(db := r.value), w, EventRecorded(|s.db.events|)) else s.(db := r.value))
    ensures w in s.workers && s.workers[w].EventRecorded? ==>
      Next(fsm, s, IntakeEnqueue(w)) == Some(Stop(Enqueue(s, ProcessWebhook(s.workers[w].event)), w))
    ensures
      var r := ClaimEvent(s.db, id);
      w !in s.workers && ProcessWebhook(id) in s.jobs && r.Wrote? ==>
        Next(fsm, s, Claim(w, id)) == Some(Goto(s.(db := r.value), w, Claimed(id)))
  {
    hide NextBooking, NextWebhook, NextPayout, NextRefund, NextEnvironment, RecordEvent, ClaimEvent, MarkEvent;
  }

  /** The mark that ends the processing of an event, by how it ended. */
  function Ending(w: nat, status: WebhookStatus): Step {
    if status == WebhookStatus.Processed then Finish(w) else if status == WebhookStatus.Skipped then Skip(w) else Fail(w)
  }

  function EndingAt(id: nat, status: WebhookStatus): Worker {
    if status == WebhookStatus.Processed then Finishing(id) else if status == WebhookStatus.Skipped then Skipping(id) else Failing(id)
  }

  lemma EndingSteps(fsm: set<Edge>, s: State, w: nat, status: WebhookStatus)
    requires w in s.workers && HandlesEvent(s.workers[w])
    requires status in {WebhookStatus.Processed, WebhookStatus.Skipped, WebhookStatus.Failed}
    ensures
      var id := s.workers[w].event;
      && (s.workers[w] == EndingAt(id, status) && id < |s.db.events| ==>
            Next(fsm, s, Ending(w, status)) == Some(Stop(s.(db := MarkEvent(s.db, id, status).value), w)))
      && (!s.workers[w].Failing? ==> Next(fsm, s, Throw(w)) == Some(Goto(s, w, Failing(id))))
      && (s.workers[w].Claimed? && id < |s.db.events| && s.db.events[id].kind in {RefundFailed, Ignored} ==>
            Next(fsm, s, PassOver(w)) ==
            Some(Goto(s, w, if s.db.events[id].kind == RefundFailed then Finishing(id) else Skipping(id))))
  {
    hide NextBooking, NextWebhook, NextPayout, NextRefund, NextEnvironment, RecordEvent, ClaimEvent;
  }

  // ---- the work on an event ----

  lemma TransactionSteps(fsm: set<Edge>, s: State, w: nat)
    requires w in s.workers && s.workers[w].Claimed? && s.workers[w].event < |s.db.events|
    ensures
      var id := s.workers[w].event;
      var e := s.db.events[id];
      && (e.kind == PaymentCaptured ==>
            var tx := ApplyCapture(s.db, e);
            Next(fsm, s, CaptureTx(w)) ==
            Some(if tx.Committed? then Goto(s.(db := tx.db), w, CaptureApplied(id, tx.value, NamedPayment(s.db, e)))
                 else Goto(s, w, Failing(id))))
      && (e.kind == PaymentFailed ==>
            var tx := ApplyFailure(s.db, e);
            Next(fsm, s, FailureTx(w)) ==
            Some(if tx.Committed? then Goto(s.(db := tx.db), w, Finishing(id)) else Goto(s, w, Failing(id))))
      && (e.kind == RefundSucceeded ==>
            var tx := ApplyRefund(s.db, e);
            Next(fsm, s, RefundTx(w)) ==
            Some(if tx.Committed? then Goto(s.(db := tx.db), w, RefundApplied(id, tx.value)) else Goto(s, w, Failing(id))))
  {
    hide NextBooking, NextInbox, NextPayout, NextRefund, NextEnvironment, ApplyCapture, ApplyFailure, ApplyRefund, NamedPayment;
  }

  /** From the capture to the confirmation, or to the refund job of a hold that lapsed. */
  lemma ConfirmSteps(fsm: set<Edge>, s: State, w: nat, appNow: int)
    requires w in s.workers
    ensures
      match s.workers[w]
      case CaptureApplied(id, b, p) => b < |s.db.bookings| ==>
        Next(fsm, s, ReadAfterCapture(w)) ==
        Some(Goto(s, w, if s.db.bookings[b].status == PendingPayment then SawPending(id, b, p) else Finishing(id)))
      case SawPending(id, b, p) => b < |s.db.bookings| ==>
        Next(fsm, s, AssertConfirm(w)) ==
        Some(Goto(s, w, if (s.db.bookings[b].status, Confirmed) in fsm then ReadyToConfirm(id, b, p) else Finishing(id)))
      case ReadyToConfirm(id, b, _) =>
        var r := ConfirmHold(s.db.bookings, s.db.blocks, fsm, b, s.now);
        Next(fsm, s, ConfirmSwap(w)) ==
        Some(if r.Wrote? then Goto(WithBookings(s, r.value), w, Finishing(id))
             else Goto(s, w, if r.NoRow? then ConfirmLost(id, b) else Failing(id)))
      case ConfirmLost(id, b) => b < |s.db.bookings| ==>
        var row := s.db.bookings[b];
        Next(fsm, s, ClassifyLost(w, appNow)) ==
        Some(Goto(s, w, if row.status == Expired || (row.status == PendingPayment && row.holdExpiresAt <= appNow)
                        then HoldExpired(id, b) else Failing(id)))
      case HoldExpired(id, b) =>
        Next(fsm, s, EnqueueRefund(w)) == Some(Goto(Enqueue(s, CreateRefund(b)), w, Finishing(id)))
      case _ => true
  {
    hide NextBooking, NextInbox, NextPayout, NextRefund, NextEnvironment;
    hide ApplyCapture, ApplyFailure, ApplyRefund, ConfirmHold, Transition;
  }

  /** From a settled refund to REFUNDED. */
  lemma RefundedSteps(fsm: set<Edge>, s: State, w: nat)
    requires w in s.workers
    ensures
      match s.workers[w]
      case RefundApplied(id, b) => b < |s.db.bookings| ==>
        Next(fsm, s, ReadAfterRefund(w)) ==
        Some(Goto(s, w, if s.db.bookings[b].status == Status.Cancelled then SawCancelled(id, b) else Finishing(id)))
      case SawCancelled(id, b) => b < |s.db.bookings| ==>
        Next(fsm, s, AssertRefunded(w)) ==
        Some(Goto(s, w, if (s.db.bookings[b].status, Status.Refunded) in fsm
                        then ReadyToMarkRefunded(id, b, s.db.bookings[b].status) else Failing(id)))
      case ReadyToMarkRefunded(id, b, from) =>
        var r := Transition(s.db.bookings, s.db.blocks, fsm, b, from, Status.Refunded, s.now);
        Next(fsm, s, RefundedSwap(w)) ==
        Some(if r.Wrote? then Goto(WithBookings(s, r.value), w, Finishing(id)) else Goto(s, w, Failing(id)))
      case _ => true
  {
    hide NextBooking, NextInbox, NextPayout, NextRefund, NextEnvironment;
    hide ApplyCapture, ApplyFailure, ApplyRefund, ConfirmHold, Transition;
  }

  // ---- payouts ----

  lemma SplitSteps(fsm: set<Edge>, s: State, w: nat, b: nat)
    ensures w !in s.workers && CreatePayout(b) in s.jobs && b < |s.db.bookings| && s.db.bookings[b].status == Completed ==>
      Next(fsm, s, StartPayout(w, b)) == Some(Goto(s, w, SawCompleted(b)))
    ensures w in s.workers ==>
      match s.workers[w]
      case SawCompleted(b) =>
        var p := CapturedForBooking(s.db.payments, b);
        Next(fsm, s, FindFunds(w)) == Some(if p.Some? then Goto(s, w, FoundFunds(b, p.value)) else Stop(s, w))
      case FoundFunds(b, p) => b < |s.db.bookings| && p < |s.db.payments| ==>
        var tx := SplitEscrow(s.db, b, p);
        Next(fsm, s, Split(w)) ==
        Some(if tx.Committed? && tx.value.Some? then Goto(s.(db := tx.db), w, SplitCommitted(tx.value.value)) else Stop(s, w))
      case SplitCommitted(q) =>
        Next(fsm, s, EnqueueExecute(w)) == Some(Stop(Enqueue(s, ExecutePayout(q)), w))
      case _ => true
  {
    hide NextBooking, NextInbox, NextWebhook, NextRefund, NextEnvironment;
    hide SplitEscrow, CapturedForBooking, SettlePayout, MarkInTransit, MarkPayoutFailed, Adjust, HoldPayout, ReleasePayout, RetryPayout;
  }

  lemma ExecuteSteps(fsm: set<Edge>, s: State, w: nat, q: nat)
    ensures w !in s.workers && ExecutePayout(q) in s.jobs && q < |s.db.payouts| && s.db.payouts[q].status == PayoutStatus.Pending ==>
      Next(fsm, s, StartExecute(w, q)) == Some(Goto(s, w, SawPayoutPending(q)))
    ensures w in s.workers && s.workers[w].TransferMade? ==>
      var q, provider := s.workers[w].payout, s.workers[w].provider;
      var r := MarkInTransit(s.db, q, provider, s.workers[w].transfer);
      Next(fsm, s, InTransitSwap(w)) ==
      Some(if r.Wrote? then Goto(s.(db := r.value), w, PayoutMoving(q, provider)) else Stop(s, w))
  {
    hide NextBooking, NextInbox, NextWebhook, NextRefund, NextEnvironment;
    hide SplitEscrow, CapturedForBooking, SettlePayout, MarkInTransit, MarkPayoutFailed, Adjust, HoldPayout, ReleasePayout, RetryPayout;
  }

  lemma TransferSteps(fsm: set<Edge>, s: State, w: nat, ref: string)
    requires w in s.workers && s.workers[w].SawPayoutPending? && s.workers[w].payout < |s.db.payouts|
    ensures
      var q := s.workers[w].payout;
      var transfers := ProviderTransfer(s.transfers, q, ref);
      && Next(fsm, s, Transfer(w, ref))
         == Some(Goto(s.(transfers := transfers), w, TransferMade(q, s.db.payouts[q].provider, transfers[q])))
      && Next(fsm, s, TransferResponseLost(w, ref)) == Some(Goto(s.(transfers := transfers), w, TransferThrew(q)))
  {
    hide NextBooking, NextInbox, NextWebhook, NextRefund, NextEnvironment;
    hide SplitEscrow, CapturedForBooking, SettlePayout, MarkInTransit, MarkPayoutFailed, Adjust, HoldPayout, ReleasePayout, RetryPayout;
  }

  lemma SettlementSteps(fsm: set<Edge>, s: State, w: nat)
    requires w in s.workers
    ensures
      match s.workers[w]
      case SawPayoutPending(q) =>
        Next(fsm, s, ExecuteThrows(w)) == Some(Goto(s, w, TransferThrew(q)))
      case PayoutMoving(q, provider) =>
        && (provider != Mock ==> Next(fsm, s, LeaveToProvider(w)) == Some(Stop(s, w)))
        && (provider == Mock ==>
              var tx := SettlePayout(s.db, q);
              Next(fsm, s, SettleMock(w)) == Some(if tx.Committed? then Stop(s.(db := tx.db), w) else Goto(s, w, TransferThrew(q))))
      case TransferThrew(q) =>
        var r := MarkPayoutFailed(s.db, q);
        Next(fsm, s, FailPayout(w)) == Some(Stop(if r.Wrote? then s.(db := r.value) else s, w))
      case _ => true
  {
    hide NextBooking, NextInbox, NextWebhook, NextRefund, NextEnvironment;
    hide SplitEscrow, CapturedForBooking, SettlePayout, MarkInTransit, MarkPayoutFailed, Adjust, HoldPayout, ReleasePayout, RetryPayout;
  }

  lemma AdminSteps(fsm: set<Edge>, s: State, q: nat)
    ensures SettlePayout(s.db, q).Committed? ==> Next(fsm, s, SettleByProvider(q)) == Some(s.(db := SettlePayout(s.db, q).db))
    ensures HoldPayout(s.db, q).Wrote? ==> Next(fsm, s, AdminHold(q)) == Some(s.(db := HoldPayout(s.db, q).value))
    ensures ReleasePayout(s.db, q).Wrote? ==>
      Next(fsm, s, AdminRelease(q, true)) == Some(Enqueue(s.(db := ReleasePayout(s.db, q).value), ExecutePayout(q)))
    ensures RetryPayout(s.db, q).Wrote? ==>
      Next(fsm, s, AdminRetry(q, true)) == Some(Enqueue(s.(db := RetryPayout(s.db, q).value), ExecutePayout(q)))
  {
    hide NextBooking, NextInbox, NextWebhook, NextRefund, NextEnvironment;
    hide SplitEscrow, CapturedForBooking, SettlePayout, MarkInTransit, MarkPayoutFailed, Adjust, HoldPayout, ReleasePayout, RetryPayout;
  }

  lemma AdjustStep(fsm: set<Edge>, s: State, a: Adjustment)
    requires Adjust(s.db, a).Committed?
    ensures Next(fsm, s, AdminAdjust(a)) == Some(s.(db := Adjust(s.db, a).db))
  {
    hide NextBooking, NextInbox, NextWebhook, NextRefund, NextEnvironment, Adjust;
  }

  // ---- refunds ----

  lemma RefundCheckSteps(fsm: set<Edge>, s: State, w: nat, b: nat)
    ensures
      var p := CapturedForBooking(s.db.payments, b);
      w !in s.workers && CreateRefund(b) in s.jobs && p.Some? && s.db.payments[p.value].intent.Some? ==>
        Next(fsm, s, StartRefund(w, b)) ==
        Some(Goto(s, w, FoundCaptured(p.value, s.db.payments[p.value].amount - s.db.payments[p.value].refunded)))
    ensures w in s.workers && s.workers[w].FoundCaptured? ==>
      var p, remaining := s.workers[w].payment, s.workers[w].remaining;
      Next(fsm, s, CheckRefund(w)) ==
      Some(if HasLiveRefund(s.db.refunds, p) || remaining <= 0 then Stop(s, w) else Goto(s, w, NoRefundYet(p, remaining)))
  {
    hide NextBooking, NextInbox, NextWebhook, NextPayout, NextEnvironment;
    hide CapturedForBooking, HasLiveRefund, InsertRefund, AttachRefundRef;
  }

  lemma RefundSteps(fsm: set<Edge>, s: State, w: nat, ref: string)
    requires w in s.workers
    ensures
      match s.workers[w]
      case NoRefundYet(p, remaining) => p < |s.db.payments| ==>
        var r := InsertRefund(s.db, p, remaining, s.db.payments[p].currency);
        Next(fsm, s, InsertRefundRow(w)) ==
        Some(if r.Wrote? then Goto(s.(db := r.value), w, RefundInserted(|s.db.refunds|)) else Stop(s, w))
      case RefundInserted(r) =>
        Next(fsm, s, AcceptRefund(w, ref)) == Some(Goto(s, w, RefundAccepted(r, ref)))
      case RefundAccepted(r, ref) =>
        var a := AttachRefundRef(s.db, r, ref);
        Next(fsm, s, AttachRefund(w)) == Some(Stop(if a.Wrote? then s.(db := a.value) else s, w))
      case _ => true
  {
    hide NextBooking, NextInbox, NextWebhook, NextPayout, NextEnvironment;
    hide CapturedForBooking, HasLiveRefund, InsertRefund, AttachRefundRef;
  }
}
