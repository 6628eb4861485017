/**
 * The booking-to-escrow machine as a transition system. Every database statement
 * or transaction is one atomic step; between two steps of one job any other job may
 * run, and a worker may vanish (`Crash`) at any point. Jobs are delivered at least
 * once: a queued job may be started any number of times, by any number of workers.
 * A worker's constructor is its program counter, its fields what it has read so far.
 */
module EscrowProtocol {
  import opened Common
  import opened BookingFsm
  import opened Bookings
  import opened EscrowTables

  datatype Job =
    | ProcessWebhook(eventId: nat)
    | CreatePayout(bookingId: nat)
    | ExecutePayout(payoutId: nat)
    | CreateRefund(bookingId: nat)

  datatype Worker =
    // webhook intake
    | EventRecorded(event: nat)
    // process-webhook
    | Claimed(event: nat)
    | CaptureApplied(event: nat, booking: nat, payment: nat)
    | SawPending(event: nat, booking: nat, payment: nat)
    | ReadyToConfirm(event: nat, booking: nat, payment: nat)
    | ConfirmLost(event: nat, booking: nat)
    | HoldExpired(event: nat, booking: nat)
    | RefundApplied(event: nat, booking: nat)
    | SawCancelled(event: nat, booking: nat)
    | ReadyToMarkRefunded(event: nat, booking: nat, from: Status)
    | Finishing(event: nat)
    | Skipping(event: nat)
    | Failing(event: nat)
    // cancel, check-in, completion
    | ReadyToCancel(booking: nat, from: Status)
    | CancelCommitted(booking: nat)
    | ReadyToMove(booking: nat, from: Status, to: Status)
    | CompletionCommitted(booking: nat)
    // create-payout
    | SawCompleted(booking: nat)
    | FoundFunds(booking: nat, payment: nat)
    | SplitCommitted(payout: nat)
    // execute-payout
    | SawPayoutPending(payout: nat)
    | TransferMade(payout: nat, provider: Provider, transfer: string)
    | PayoutMoving(payout: nat, provider: Provider)
    | TransferThrew(payout: nat)
    // create-refund
    | FoundCaptured(payment: nat, remaining: int)
    | NoRefundYet(payment: nat, remaining: int)
    | RefundInserted(refund: nat)
    | RefundAccepted(refund: nat, ref: string)

  /** `transfers` is the provider's own record, keyed by the payout id it is idempotent on. */
  datatype State = State(
    db: Tables, jobs: set<Job>, workers: map<nat, Worker>, transfers: map<nat, string>, now: int)

  datatype Step =
    // environment
    | Tick(elapsed: nat) | Crash(w: nat) | SetBlocks(blocks: seq<Block>)
    // bookings
    | PlaceHold(row: Booking) | Expire(b: nat) | ConfirmDirectly(b: nat)
    | StartCancel(w: nat, b: nat) | CancelSwap(w: nat) | CancelEnqueue(w: nat)
    | StartMove(w: nat, b: nat, to: Status) | MoveSwap(w: nat) | CompleteEnqueue(w: nat)
    // payment initiation
    | Initiate(b: nat, provider: Provider, key: string) | Attach(p: nat, intent: string)
    // webhooks
    | Intake(w: nat, e: Event, signatureValid: bool) | IntakeEnqueue(w: nat)
    | Claim(w: nat, id: nat) | CaptureTx(w: nat) | FailureTx(w: nat) | RefundTx(w: nat) | PassOver(w: nat)
    | ReadAfterCapture(w: nat) | AssertConfirm(w: nat) | ConfirmSwap(w: nat)
    | ClassifyLost(w: nat, appNow: int) | EnqueueRefund(w: nat)
    | ReadAfterRefund(w: nat) | AssertRefunded(w: nat) | RefundedSwap(w: nat)
    | Throw(w: nat) | Finish(w: nat) | Skip(w: nat) | Fail(w: nat)
    // payouts
    | StartPayout(w: nat, b: nat) | FindFunds(w: nat) | Split(w: nat) | EnqueueExecute(w: nat)
    | StartExecute(w: nat, q: nat) | Transfer(w: nat, ref: string) | TransferResponseLost(w: nat, ref: string)
    | InTransitSwap(w: nat) | SettleMock(w: nat) | LeaveToProvider(w: nat) | ExecuteThrows(w: nat) | FailPayout(w: nat)
    | SettleByProvider(q: nat) | AdminHold(q: nat) | AdminRelease(q: nat, enqueued: bool) | AdminRetry(q: nat, enqueued: bool)
    | AdminAdjust(a: Adjustment)
    // refunds
    | StartRefund(w: nat, b: nat) | CheckRefund(w: nat) | InsertRefundRow(w: nat) | AcceptRefund(w: nat, ref: string)
    | AttachRefund(w: nat)

  function Init(now: int): State {
    State(EMPTY, {}, map[], map[], now)
  }

  /** The worker is at a program point. */
  function At(s: State, w: nat): Option<Worker> {
    if w in s.workers then Some(s.workers[w]) else None
  }

  function Goto(s: State, w: nat, next: Worker): State {
    s.(workers := s.workers[w := next])
  }

  function Stop(s: State, w: nat): State {
    s.(workers := s.workers - {w})
  }

  function Enqueue(s: State, job: Job): State {
    s.(jobs := s.jobs + {job})
  }

  function WithBookings(s: State, bookings: seq<Booking>): State {
    s.(db := s.db.(bookings := bookings))
  }

  function NextEnvironment(s: State, step: Step): Option<State>
    requires step.Tick? || step.Crash? || step.SetBlocks?
  {
    match step
    case Tick(elapsed) => Some(s.(now := s.now + elapsed))
    case Crash(w) => Some(Stop(s, w))
    case SetBlocks(blocks) => Some(s.(db := s.db.(blocks := blocks)))
  }

  predicate IsBookingStep(step: Step) {
    || step.PlaceHold? || step.Expire? || step.ConfirmDirectly? || step.StartCancel? || step.CancelSwap?
    || step.CancelEnqueue? || step.StartMove? || step.MoveSwap? || step.CompleteEnqueue?
  }

  function NextBooking(fsm: set<Edge>, s: State, step: Step): Option<State>
    requires IsBookingStep(step)
  {
    var db := s.db;
    match step
    case PlaceHold(row) =>
      var r := InsertHold(db.bookings, db.blocks, row, s.now);
      if r.Wrote? then Some(WithBookings(s, r.value)) else None
    case Expire(b) =>
      var r := ExpireIfLapsed(db.bookings, db.blocks, fsm, b, s.now);
      if r.Wrote? then Some(WithBookings(s, r.value)) else None
    case ConfirmDirectly(b) =>
      var r := ConfirmHold(db.bookings, db.blocks, fsm, b, s.now);
      if r.Wrote? then Some(WithBookings(s, r.value)) else None
    case StartCancel(w, b) =>
      if w !in s.workers && b < |db.bookings| && (db.bookings[b].status, Status.Cancelled) in fsm
      then Some(Goto(s, w, ReadyToCancel(b, db.bookings[b].status)))
      else None
    case CancelSwap(w) =>
      (match At(s, w)
       case Some(ReadyToCancel(b, from)) =>
         var r := Transition(db.bookings, db.blocks, fsm, b, from, Status.Cancelled, s.now);
         Some(if r.Wrote? then Goto(WithBookings(s, r.value), w, CancelCommitted(b)) else Stop(s, w))
       case _ => None)
    case CancelEnqueue(w) =>
      (match At(s, w)
       case Some(CancelCommitted(b)) => Some(Stop(Enqueue(s, CreateRefund(b)), w))
       case _ => None)
    case StartMove(w, b, to) =>
      if w !in s.workers && b < |db.bookings| && to in {CheckedIn, Completed} && (db.bookings[b].status, to) in fsm
      then Some(Goto(s, w, ReadyToMove(b, db.bookings[b].status, to)))
      else None
    case MoveSwap(w) =>
      (match At(s, w)
       case Some(ReadyToMove(b, from, to)) =>
         var r := Transition(db.bookings, db.blocks, fsm, b, from, to, s.now);
         Some(if r.Wrote? && to == Completed then Goto(WithBookings(s, r.value), w, CompletionCommitted(b))
              else if r.Wrote? then Stop(WithBookings(s, r.value), w)
              else Stop(s, w))
       case _ => None)
    case CompleteEnqueue(w) =>
      (match At(s, w)
       case Some(CompletionCommitted(b)) => Some(Stop(Enqueue(s, CreatePayout(b)), w))
       case _ => None)
  }

  predicate IsInboxStep(step: Step) {
    || step.Initiate? || step.Attach? || step.Intake? || step.IntakeEnqueue? || step.Claim?
    || step.Throw? || step.Finish? || step.Skip? || step.Fail? || step.PassOver?
  }

  predicate HandlesEvent(worker: Worker) {
    || worker.Claimed? || worker.CaptureApplied? || worker.SawPending? || worker.ReadyToConfirm?
    || worker.ConfirmLost? || worker.HoldExpired? || worker.RefundApplied? || worker.SawCancelled?
    || worker.ReadyToMarkRefunded? || worker.Finishing? || worker.Skipping? || worker.Failing?
  }

  /** Initiation, intake, the claim of an event, and the marks that end its processing. */
  function NextInbox(s: State, step: Step): Option<State>
    requires IsInboxStep(step)
  {
    var db := s.db;
    match step
    case Initiate(b, provider, key) =>
      if b >= |db.bookings| then None
      else
        var r := InsertPayment(db, b, provider, key, db.bookings[b].money.total, db.bookings[b].currency);
        if r.Wrote? then Some(s.(db := r.value)) else None
    case Attach(p, intent) =>
      var r := AttachIntent(db, p, intent);
      if r.Wrote? then Some(s.(db := r.value)) else None
    case Intake(w, e, signatureValid) =>
      var r := RecordEvent(db, e, signatureValid);
      if w in s.workers || !r.Wrote? then None
      else if signatureValid then Some(Goto(s.(db := r.value), w, EventRecorded(|db.events|)))
      else Some(s.(db := r.value))
    case IntakeEnqueue(w) =>
      (match At(s, w)
       case Some(EventRecorded(e)) => Some(Stop(Enqueue(s, ProcessWebhook(e)), w))
       case _ => None)
    case Claim(w, id) =>
      var r := ClaimEvent(db, id);
      if w in s.workers || ProcessWebhook(id) !in s.jobs || !r.Wrote? then None
      else Some(Goto(s.(db := r.value), w, Claimed(id)))
    case PassOver(w) =>
      (match At(s, w)
       case Some(Claimed(e)) =>
         if e >= |db.events| then None
         else if db.events[e].kind == RefundFailed then Some(Goto(s, w, Finishing(e)))
         else if db.events[e].kind == Ignored then Some(Goto(s, w, Skipping(e)))
         else None
       case _ => None)
    case Throw(w) =>
      if w in s.workers && HandlesEvent(s.workers[w]) && !s.workers[w].Failing?
      then Some(Goto(s, w, Failing(s.workers[w].event)))
      else None
    case Finish(w) =>
      (match At(s, w)
       case Some(Finishing(e)) =>
         var r := MarkEvent(db, e, WebhookStatus.Processed);
         if r.Wrote? then Some(Stop(s.(db := r.value), w)) else None
       case _ => None)
    case Skip(w) =>
      (match At(s, w)
       case Some(Skipping(e)) =>
         var r := MarkEvent(db, e, WebhookStatus.Skipped);
         if r.Wrote? then Some(Stop(s.(db := r.value), w)) else None
       case _ => None)
    case Fail(w) =>
      (match At(s, w)
       case Some(Failing(e)) =>
         var r := MarkEvent(db, e, WebhookStatus.Failed);
         if r.Wrote? then Some(Stop(s.(db := r.value), w)) else None
       case _ => None)
  }

  predicate IsWebhookStep(step: Step) {
    || step.CaptureTx? || step.FailureTx? || step.RefundTx? || step.ReadAfterCapture? || step.AssertConfirm?
    || step.ConfirmSwap? || step.ClassifyLost? || step.EnqueueRefund? || step.ReadAfterRefund?
    || step.AssertRefunded? || step.RefundedSwap?
  }

  /** The work on one claimed event, up to its final mark. */
  function NextWebhook(fsm: set<Edge>, s: State, step: Step): Option<State>
    requires IsWebhookStep(step)
  {
    var db := s.db;
    match step
    case CaptureTx(w) =>
      (match At(s, w)
       case Some(Claimed(e)) =>
         if e >= |db.events| || db.events[e].kind != PaymentCaptured then None
         else
           (match ApplyCapture(db, db.events[e])
            case Committed(db', b) => Some(Goto(s.(db := db'), w, CaptureApplied(e, b, NamedPayment(db, db.events[e]))))
            case RolledBack => Some(Goto(s, w, Failing(e))))
       case _ => None)
    case FailureTx(w) =>
      (match At(s, w)
       case Some(Claimed(e)) =>
         if e >= |db.events| || db.events[e].kind != PaymentFailed then None
         else
           (match ApplyFailure(db, db.events[e])
            case Committed(db', _) => Some(Goto(s.(db := db'), w, Finishing(e)))
            case RolledBack => Some(Goto(s, w, Failing(e))))
       case _ => None)
    case RefundTx(w) =>
      (match At(s, w)
       case Some(Claimed(e)) =>
         if e >= |db.events| || db.events[e].kind != RefundSucceeded then None
         else
           (match ApplyRefund(db, db.events[e])
            case Committed(db', b) => Some(Goto(s.(db := db'), w, RefundApplied(e, b)))
            case RolledBack => Some(Goto(s, w, Failing(e))))
       case _ => None)
    case ReadAfterCapture(w) =>
      (match At(s, w)
       case Some(CaptureApplied(e, b, p)) =>
         if b >= |db.bookings| then None
         else if db.bookings[b].status != PendingPayment then Some(Goto(s, w, Finishing(e)))
         else Some(Goto(s, w, SawPending(e, b, p)))
       case _ => None)
    case AssertConfirm(w) =>
      (match At(s, w)
       case Some(SawPending(e, b, p)) =>
         if b >= |db.bookings| then None
         else if (db.bookings[b].status, Confirmed) !in fsm then Some(Goto(s, w, Finishing(e)))
         else Some(Goto(s, w, ReadyToConfirm(e, b, p)))
       case _ => None)
    case ConfirmSwap(w) =>
      (match At(s, w)
       case Some(ReadyToConfirm(e, b, _)) =>
         (match ConfirmHold(db.bookings, db.blocks, fsm, b, s.now)
          case Wrote(bookings') => Some(Goto(WithBookings(s, bookings'), w, Finishing(e)))
          case NoRow => Some(Goto(s, w, ConfirmLost(e, b)))
          case Rejected => Some(Goto(s, w, Failing(e))))
       case _ => None)
    case ClassifyLost(w, appNow) =>
      (match At(s, w)
       case Some(ConfirmLost(e, b)) =>
         if b >= |db.bookings| then None
         else
           var row := db.bookings[b];
           if row.status == Expired || (row.status == PendingPayment && row.holdExpiresAt <= appNow)
           then Some(Goto(s, w, HoldExpired(e, b)))
           else Some(Goto(s, w, Failing(e)))
       case _ => None)
    case EnqueueRefund(w) =>
      (match At(s, w)
       case Some(HoldExpired(e, b)) => Some(Goto(Enqueue(s, CreateRefund(b)), w, Finishing(e)))
       case _ => None)
    case ReadAfterRefund(w) =>
      (match At(s, w)
       case Some(RefundApplied(e, b)) =>
         if b >= |db.bookings| then None
         else if db.bookings[b].status == Status.Cancelled then Some(Goto(s, w, SawCancelled(e, b)))
         else Some(Goto(s, w, Finishing(e)))
       case _ => None)
    case AssertRefunded(w) =>
      (match At(s, w)
       case Some(SawCancelled(e, b)) =>
         if b >= |db.bookings| then None
         else if (db.bookings[b].status, Status.Refunded) in fsm
         then Some(Goto(s, w, ReadyToMarkRefunded(e, b, db.bookings[b].status)))
         else Some(Goto(s, w, Failing(e)))
       case _ => None)
    case RefundedSwap(w) =>
      (match At(s, w)
       case Some(ReadyToMarkRefunded(e, b, from)) =>
         var r := Transition(db.bookings, db.blocks, fsm, b, from, Status.Refunded, s.now);
         Some(if r.Wrote? then Goto(WithBookings(s, r.value), w, Finishing(e)) else Goto(s, w, Failing(e)))
       case _ => None)
  }

  predicate IsPayoutStep(step: Step) {
    || step.StartPayout? || step.FindFunds? || step.Split? || step.EnqueueExecute? || step.StartExecute?
    || step.Transfer? || step.TransferResponseLost? || step.InTransitSwap? || step.SettleMock? || step.LeaveToProvider?
    || step.ExecuteThrows? || step.FailPayout? || step.SettleByProvider? || step.AdminHold? || step.AdminRelease?
    || step.AdminRetry? || step.AdminAdjust?
  }

  /** The provider's answer: the transfer it already made for this payout, or a new one. */
  function ProviderTransfer(transfers: map<nat, string>, q: nat, ref: string): map<nat, string> {
    if q in transfers then transfers else transfers[q := ref]
  }

  function NextPayout(s: State, step: Step): Option<State>
    requires IsPayoutStep(step)
  {
    var db := s.db;
    match step
    case StartPayout(w, b) =>
      if w in s.workers || CreatePayout(b) !in s.jobs || b >= |db.bookings| || db.bookings[b].status != Completed then None
      else Some(Goto(s, w, SawCompleted(b)))
    case FindFunds(w) =>
      (match At(s, w)
       case Some(SawCompleted(b)) =>
         var p := CapturedForBooking(db.payments, b);
         Some(if p.Some? then Goto(s, w, FoundFunds(b, p.value)) else Stop(s, w))
       case _ => None)
    case Split(w) =>
      (match At(s, w)
       case Some(FoundFunds(b, p)) =>
         if b >= |db.bookings| || p >= |db.payments| then None
         else
           (match SplitEscrow(db, b, p)
            case Committed(db', Some(q)) => Some(Goto(s.(db := db'), w, SplitCommitted(q)))
            case Committed(_, None) => Some(Stop(s, w))
            case RolledBack => Some(Stop(s, w)))
       case _ => None)
    case EnqueueExecute(w) =>
      (match At(s, w)
       case Some(SplitCommitted(q)) => Some(Stop(Enqueue(s, ExecutePayout(q)), w))
       case _ => None)
    case StartExecute(w, q) =>
      if w in s.workers || ExecutePayout(q) !in s.jobs || q >= |db.payouts| || db.payouts[q].status != PayoutStatus.Pending then None
      else Some(Goto(s, w, SawPayoutPending(q)))
    case Transfer(w, ref) =>
      (match At(s, w)
       case Some(SawPayoutPending(q)) =>
         if q >= |db.payouts| then None
         else
           var transfers' := ProviderTransfer(s.transfers, q, ref);
           Some(Goto(s.(transfers := transfers'), w, TransferMade(q, db.payouts[q].provider, transfers'[q])))
       case _ => None)
    case TransferResponseLost(w, ref) =>
      (match At(s, w)
       case Some(SawPayoutPending(q)) =>
         Some(Goto(s.(transfers := ProviderTransfer(s.transfers, q, ref)), w, TransferThrew(q)))
       case _ => None)
    case InTransitSwap(w) =>
      (match At(s, w)
       case Some(TransferMade(q, provider, transfer)) =>
         var r := MarkInTransit(db, q, provider, transfer);
         Some(if r.Wrote? then Goto(s.(db := r.value), w, PayoutMoving(q, provider)) else Stop(s, w))
       case _ => None)
    case SettleMock(w) =>
      (match At(s, w)
       case Some(PayoutMoving(q, provider)) =>
         if provider != Mock then None
         else
           (match SettlePayout(db, q)
            case Committed(db', _) => Some(Stop(s.(db := db'), w))
            case RolledBack => Some(Goto(s, w, TransferThrew(q))))
       case _ => None)
    case LeaveToProvider(w) =>
      (match At(s, w)
       case Some(PayoutMoving(q, provider)) => if provider == Mock then None else Some(Stop(s, w))
       case _ => None)
    case ExecuteThrows(w) =>
      (match At(s, w)
       case Some(SawPayoutPending(q)) => Some(Goto(s, w, TransferThrew(q)))
       case Some(TransferMade(q, _, _)) => Some(Goto(s, w, TransferThrew(q)))
       case Some(PayoutMoving(q, _)) => Some(Goto(s, w, TransferThrew(q)))
       case _ => None)
    case FailPayout(w) =>
      (match At(s, w)
       case Some(TransferThrew(q)) =>
         var r := MarkPayoutFailed(db, q);
         Some(Stop(if r.Wrote? then s.(db := r.value) else s, w))
       case _ => None)
    case SettleByProvider(q) =>
      (match SettlePayout(db, q)
       case Committed(db', _) => Some(s.(db := db'))
       case RolledBack => None)
    case AdminHold(q) =>
      var r := HoldPayout(db, q);
      if r.Wrote? then Some(s.(db := r.value)) else None
    case AdminRelease(q, enqueued) =>
      var r := ReleasePayout(db, q);
      if r.Wrote? then Some(if enqueued then Enqueue(s.(db := r.value), ExecutePayout(q)) else s.(db := r.value)) else None
    case AdminRetry(q, enqueued) =>
      var r := RetryPayout(db, q);
      if r.Wrote? then Some(if enqueued then Enqueue(s.(db := r.value), ExecutePayout(q)) else s.(db := r.value)) else None
    case AdminAdjust(a) =>
      (match Adjust(db, a)
       case Committed(db', _) => Some(s.(db := db'))
       case RolledBack => None)
  }

  predicate IsRefundStep(step: Step) {
    step.StartRefund? || step.CheckRefund? || step.InsertRefundRow? || step.AcceptRefund? || step.AttachRefund?
  }

  function NextRefund(s: State, step: Step): Option<State>
    requires IsRefundStep(step)
  {
    var db := s.db;
    match step
    case StartRefund(w, b) =>
      var p := CapturedForBooking(db.payments, b);
      if w in s.workers || CreateRefund(b) !in s.jobs || p.None? || db.payments[p.value].intent.None? then None
      else Some(Goto(s, w, FoundCaptured(p.value, db.payments[p.value].amount - db.payments[p.value].refunded)))
    case CheckRefund(w) =>
      (match At(s, w)
       case Some(FoundCaptured(p, remaining)) =>
         Some(if HasLiveRefund(db.refunds, p) || remaining <= 0 then Stop(s, w) else Goto(s, w, NoRefundYet(p, remaining)))
       case _ => None)
    case InsertRefundRow(w) =>
      (match At(s, w)
       case Some(NoRefundYet(p, remaining)) =>
         if p >= |db.payments| then None
         else
           var r := InsertRefund(db, p, remaining, db.payments[p].currency);
           Some(if r.Wrote? then Goto(s.(db := r.value), w, RefundInserted(|db.refunds|)) else Stop(s, w))
       case _ => None)
    case AcceptRefund(w, ref) =>
      (match At(s, w)
       case Some(RefundInserted(r)) => Some(Goto(s, w, RefundAccepted(r, ref)))
       case _ => None)
    case AttachRefund(w) =>
      (match At(s, w)
       case Some(RefundAccepted(r, ref)) =>
         var a := AttachRefundRef(db, r, ref);
         Some(Stop(if a.Wrote? then s.(db := a.value) else s, w))
       case _ => None)
  }

  /** The state after a step, or None when the step is not enabled. */
  function Next(fsm: set<Edge>, s: State, step: Step): Option<State> {
    if IsBookingStep(step) then NextBooking(fsm, s, step)
    else if IsInboxStep(step) then NextInbox(s, step)
    else if IsWebhookStep(step) then NextWebhook(fsm, s, step)
    else if IsPayoutStep(step) then NextPayout(s, step)
    else if IsRefundStep(step) then NextRefund(s, step)
    else NextEnvironment(s, step)
  }

  /** A run: it starts with empty tables and every state comes from the one before by one step. */
  ghost predicate Run(fsm: set<Edge>, trace: seq<State>) {
    && |trace| > 0
    && trace[0] == Init(trace[0].now)
    && forall i :: 0 <= i < |trace| - 1 ==> Follows(fsm, trace[i], trace[i + 1])
  }

  ghost predicate Follows(fsm: set<Edge>, s: State, s': State) {
    exists step :: Next(fsm, s, step) == Some(s')
  }
}
