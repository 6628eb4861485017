/**
 * Refunds over whole runs: every refund is of its whole payment, exactly when the
 * requested refunds stay within a payment, when a pending one can be settled, and what
 * becomes of a refund event.
 */
module EscrowRefunds {
  import opened Common
  import opened BookingFsm
  import opened EscrowTables
  import opened EscrowInvariant
  import opened EscrowProtocol
  import opened EscrowFrames
  import opened EscrowSteps
  import opened EscrowSafety
  import opened EscrowTheorems

  // ---- the refund transaction ----

  /** A refund event settles its pending row exactly when that keeps the payment's refunds within its amount. */
  lemma RefundCommitsIff(db: Tables, e: Event)
    requires RowsOk(db) && e.intent.Some? && e.refundRef.Some?
    requires PaymentByIntent(db.payments, e.provider, e.intent.value).Some?
    ensures
      var i := PaymentByIntent(db.payments, e.provider, e.intent.value).value;
      var r := PendingRefund(db.refunds, i, e.refundRef.value);
      ApplyRefund(db, e).Committed? <==>
        (r.None? || db.payments[i].refunded + db.refunds[r.value].amount <= db.payments[i].amount)
  {
    var i := PaymentByIntent(db.payments, e.provider, e.intent.value).value;
    var r := PendingRefund(db.refunds, i, e.refundRef.value);
    if r.Some? {
      var p := db.payments[i];
      assert RefundOk(db, r.value);
      var legs := RefundLegs(p, i, db.refunds[r.value].amount);
      assert legs == [legs[0], legs[1]];
      PairPosts(db.ledger, p.currency, legs[0], legs[1]);
    }
  }

  // ---- every refund is of the whole payment ----

  predicate ReadsForRefund(worker: Worker) {
    worker.FoundCaptured? || worker.NoRefundYet?
  }

  ghost predicate WholeRefund(db: Tables, r: nat)
    requires r < |db.refunds|
  {
    var row := db.refunds[r];
    Live(row.status) && row.paymentId < |db.payments| && row.amount == db.payments[row.paymentId].amount
  }

  predicate WholeRead(db: Tables, worker: Worker)
    requires ReadsForRefund(worker)
  {
    worker.payment < |db.payments| && worker.remaining == db.payments[worker.payment].amount
  }

  /** Every refund is of its whole payment, and so is every one that a worker is about to request. */
  ghost predicate RefundsWhole(s: State) {
    && (forall r :: 0 <= r < |s.db.refunds| ==> WholeRefund(s.db, r))
    && (forall w :: w in s.workers && ReadsForRefund(s.workers[w]) ==> WholeRead(s.db, s.workers[w]))
  }

  lemma {:induction false} AllOrNothing(refunds: seq<Refund>, p: nat, amount: int)
    requires 0 < amount && forall r :: 0 <= r < |refunds| && refunds[r].paymentId == p ==> refunds[r].amount == amount
    ensures Sum(refunds, SucceededW(p)) == 0 || Sum(refunds, SucceededW(p)) >= amount
    decreases |refunds|
  {
    if |refunds| > 0 {
      AllOrNothing(refunds[..|refunds| - 1], p, amount);
    }
  }

  /** So a payment is refunded in full or not at all. */
  lemma RefundedInFullOrNot(s: State, p: nat)
    requires RowsOk(s.db) && RefundsWhole(s) && p < |s.db.payments|
    ensures s.db.payments[p].refunded == 0 || s.db.payments[p].refunded == s.db.payments[p].amount
    ensures s.db.payments[p].status != PaymentStatus.PartiallyRefunded
    ensures Refundable(s.db.payments[p].status) ==> s.db.payments[p].refunded == 0
  {
    assert PaymentOk(s.db, p);
    forall r | 0 <= r < |s.db.refunds| && s.db.refunds[r].paymentId == p ensures s.db.refunds[r].amount == s.db.payments[p].amount {
      assert WholeRefund(s.db, r);
    }
    AllOrNothing(s.db.refunds, p, s.db.payments[p].amount);
  }

  /** Where a worker that has read a payment for a refund comes from. */
  lemma ReadOrigin(fsm: set<Edge>, s: State, step: Step, w: nat)
    requires Next(fsm, s, step).Some?
    requires w in Next(fsm, s, step).value.workers && ReadsForRefund(Next(fsm, s, step).value.workers[w])
    ensures
      var worker' := Next(fsm, s, step).value.workers[w];
      || (w in s.workers && s.workers[w] == worker')
      || (step == CheckRefund(w) && w in s.workers && s.workers[w] == FoundCaptured(worker'.payment, worker'.remaining)
          && !HasLiveRefund(s.db.refunds, worker'.payment))
      || (step.StartRefund? && step.w == w && worker'.FoundCaptured?
          && CapturedForBooking(s.db.payments, step.b) == Some(worker'.payment)
          && worker'.remaining == s.db.payments[worker'.payment].amount - s.db.payments[worker'.payment].refunded)
  {
    hide Frame, NextBooking, NextInbox, NextWebhook, NextPayout, NextRefund, NextEnvironment, CapturedForBooking, HasLiveRefund;
    if IsRefundStep(step) {
      RefundReadOrigin(s, step, w);
    } else {
      StepFrames(fsm, s, step);
      OutsideRefunds(s, Next(fsm, s, step).value, step, w);
    }
  }

  lemma RefundReadOrigin(s: State, step: Step, w: nat)
    requires IsRefundStep(step) && NextRefund(s, step).Some?
    requires w in NextRefund(s, step).value.workers && ReadsForRefund(NextRefund(s, step).value.workers[w])
    ensures
      var worker' := NextRefund(s, step).value.workers[w];
      || (w in s.workers && s.workers[w] == worker')
      || (step == CheckRefund(w) && w in s.workers && s.workers[w] == FoundCaptured(worker'.payment, worker'.remaining)
          && !HasLiveRefund(s.db.refunds, worker'.payment))
      || (step.StartRefund? && step.w == w && worker'.FoundCaptured?
          && CapturedForBooking(s.db.payments, step.b) == Some(worker'.payment)
          && worker'.remaining == s.db.payments[worker'.payment].amount - s.db.payments[worker'.payment].refunded)
  {
    hide CapturedForBooking, HasLiveRefund, InsertRefund, AttachRefundRef;
  }

  lemma OutsideRefunds(s: State, s': State, step: Step, w: nat)
    requires Frame(s, s', step) && !IsRefundStep(step) && w in s'.workers && ReadsForRefund(s'.workers[w])
    ensures w in s.workers && s.workers[w] == s'.workers[w]
  {
    hide IsBookingStep, IsInboxStep, IsWebhookStep, IsPayoutStep, IsRefundStep, Workerless, OnlyItsWorker, WritesEvents, HandlesEvent;
    WorkerOrigin(s, s', step, w);
  }

  lemma ReadStaysWhole(fsm: set<Edge>, s: State, step: Step, w: nat)
    requires RowsOk(s.db) && RefundsWhole(s) && Next(fsm, s, step).Some? && RowsGrow(s.db, Next(fsm, s, step).value.db)
    requires w in Next(fsm, s, step).value.workers && ReadsForRefund(Next(fsm, s, step).value.workers[w])
    ensures WholeRead(Next(fsm, s, step).value.db, Next(fsm, s, step).value.workers[w])
  {
    hide Next, RowsOk, CapturedForBooking, HasLiveRefund;
    ReadOrigin(fsm, s, step, w);
    var worker', db' := Next(fsm, s, step).value.workers[w], Next(fsm, s, step).value.db;
    if step.StartRefund? && CapturedForBooking(s.db.payments, step.b) == Some(worker'.payment) {
      RefundedInFullOrNot(s, worker'.payment);
    }
    assert PaymentGrows(s.db.payments[worker'.payment], db'.payments[worker'.payment]);
  }

  /** A row that was there stays whole, and the row that InsertRefundRow adds is. */
  lemma RowsStayWhole(fsm: set<Edge>, s: State, step: Step, r: nat)
    requires RefundsWhole(s) && Next(fsm, s, step).Some? && RowsGrow(s.db, Next(fsm, s, step).value.db)
    requires r < |Next(fsm, s, step).value.db.refunds|
    ensures WholeRefund(Next(fsm, s, step).value.db, r)
  {
    hide NextBooking, NextInbox, NextWebhook, NextPayout, NextEnvironment;
    var db' := Next(fsm, s, step).value.db;
    if r < |s.db.refunds| {
      assert WholeRefund(s.db, r) && RefundGrows(s.db.refunds[r], db'.refunds[r]);
      assert PaymentGrows(s.db.payments[s.db.refunds[r].paymentId], db'.payments[s.db.refunds[r].paymentId]);
    } else {
      StepFrames(fsm, s, step);
      assert step.InsertRefundRow?;
      assert WholeRead(s.db, s.workers[step.w]);
    }
  }

  lemma StepKeepsWhole(fsm: set<Edge>, s: State, step: Step)
    requires Inv(fsm, s) && RefundsWhole(s) && Next(fsm, s, step).Some?
    ensures RefundsWhole(Next(fsm, s, step).value)
  {
    EveryStep(fsm, s, step);
    var s' := Next(fsm, s, step).value;
    assert RowsOk(s.db) && RowsGrow(s.db, s'.db);
    hide Inv, Good, Next, RowsOk, RowsGrow, WholeRefund, WholeRead;
    forall r | 0 <= r < |s'.db.refunds| ensures WholeRefund(s'.db, r) {
      RowsStayWhole(fsm, s, step, r);
    }
    forall w | w in s'.workers && ReadsForRefund(s'.workers[w]) ensures WholeRead(s'.db, s'.workers[w]) {
      ReadStaysWhole(fsm, s, step, w);
    }
  }

  lemma FirstIsWhole(fsm: set<Edge>, trace: seq<State>)
    requires Run(fsm, trace)
    ensures RefundsWhole(trace[0])
  {
  }

  lemma {:induction false} RunStaysWhole(fsm: set<Edge>, trace: seq<State>, i: nat)
    requires Run(fsm, trace) && i < |trace|
    ensures RefundsWhole(trace[i])
    decreases i
  {
    hide RefundsWhole, Next, Inv, Run;
    if i == 0 {
      FirstIsWhole(fsm, trace);
    } else {
      RunStaysWhole(fsm, trace, i - 1);
      RunInv(fsm, trace, i - 1);
      var step := StepInto(fsm, trace, i);
      StepKeepsWhole(fsm, trace[i - 1], step);
    }
  }

  /**
   * In every run, under every whitelist and every schedule: a refund is of its whole
   * payment, a payment is refunded in full or not at all, and none is ever
   * PARTIALLY_REFUNDED.
   */
  lemma RefundsAreWhole(fsm: set<Edge>, trace: seq<State>, i: nat)
    requires Run(fsm, trace) && i < |trace|
    ensures
      var db := trace[i].db;
      && (forall r :: 0 <= r < |db.refunds| ==> WholeRefund(db, r))
      && (forall p :: 0 <= p < |db.payments| ==>
            && db.payments[p].status != PaymentStatus.PartiallyRefunded
            && db.payments[p].refunded in {0, db.payments[p].amount})
  {
    RunStaysWhole(fsm, trace, i);
    RunInv(fsm, trace, i);
    var db := trace[i].db;
    forall p | 0 <= p < |db.payments|
      ensures db.payments[p].status != PaymentStatus.PartiallyRefunded && db.payments[p].refunded in {0, db.payments[p].amount}
    {
      RefundedInFullOrNot(trace[i], p);
    }
  }

  // ---- when the requests stay within the payment ----

  function RequestedW(p: nat): Refund -> int {
    (r: Refund) => if r.paymentId == p then r.amount else 0
  }

  predicate AtMostOne(refunds: seq<Refund>, p: nat) {
    forall i, j :: 0 <= i < j < |refunds| ==> refunds[i].paymentId != p || refunds[j].paymentId != p
  }

  predicate NoneFor(refunds: seq<Refund>, p: nat) {
    forall i :: 0 <= i < |refunds| ==> refunds[i].paymentId != p
  }

  /** Rows of one positive amount add up to no more than it exactly when there is at most one. */
  lemma {:induction false} SumOfOneAmount(refunds: seq<Refund>, p: nat, amount: int)
    requires 0 < amount && forall i :: 0 <= i < |refunds| && refunds[i].paymentId == p ==> refunds[i].amount == amount
    ensures if NoneFor(refunds, p) then Sum(refunds, RequestedW(p)) == 0 else Sum(refunds, RequestedW(p)) >= amount
    ensures AtMostOne(refunds, p) <==> Sum(refunds, RequestedW(p)) <= amount
    decreases |refunds|
  {
    if |refunds| > 0 {
      var before, last := refunds[..|refunds| - 1], refunds[|refunds| - 1];
      SumOfOneAmount(before, p, amount);
      AtMostOneMore(before, last, p);
      assert refunds == before + [last];
    }
  }

  lemma AtMostOneMore(before: seq<Refund>, last: Refund, p: nat)
    ensures NoneFor(before + [last], p) <==> NoneFor(before, p) && last.paymentId != p
    ensures AtMostOne(before + [last], p) <==> if last.paymentId == p then NoneFor(before, p) else AtMostOne(before, p)
  {
    var refunds := before + [last];
    assert forall i :: 0 <= i < |before| ==> refunds[i] == before[i];
    assert refunds[|before|] == last;
    if AtMostOne(refunds, p) && last.paymentId == p {
      forall i | 0 <= i < |before| ensures before[i].paymentId != p {
        assert refunds[i] == before[i];
      }
    }
    if AtMostOne(refunds, p) {
      forall i, j | 0 <= i < j < |before| ensures before[i].paymentId != p || before[j].paymentId != p {
        assert refunds[i] == before[i] && refunds[j] == before[j];
      }
    }
  }

  /**
   * In every run, whatever the schedule: the refunds requested for a payment, pending
   * or settled, stay within it if and only if at most one was ever requested.
   */
  lemma RequestedWithinIff(fsm: set<Edge>, trace: seq<State>, i: nat, p: nat)
    requires Run(fsm, trace) && i < |trace| && p < |trace[i].db.payments|
    ensures Sum(trace[i].db.refunds, RequestedW(p)) <= trace[i].db.payments[p].amount <==> AtMostOne(trace[i].db.refunds, p)
  {
    AmountsOf(fsm, trace, i, p);
    SumOfOneAmount(trace[i].db.refunds, p, trace[i].db.payments[p].amount);
  }

  lemma AmountsOf(fsm: set<Edge>, trace: seq<State>, i: nat, p: nat)
    requires Run(fsm, trace) && i < |trace| && p < |trace[i].db.payments|
    ensures 0 < trace[i].db.payments[p].amount
    ensures forall r :: 0 <= r < |trace[i].db.refunds| && trace[i].db.refunds[r].paymentId == p ==>
      trace[i].db.refunds[r].amount == trace[i].db.payments[p].amount && Live(trace[i].db.refunds[r].status)
  {
    RunStaysWhole(fsm, trace, i);
    RunInv(fsm, trace, i);
    assert PaymentOk(trace[i].db, p);
    forall r | 0 <= r < |trace[i].db.refunds| && trace[i].db.refunds[r].paymentId == p
      ensures trace[i].db.refunds[r].amount == trace[i].db.payments[p].amount && Live(trace[i].db.refunds[r].status)
    {
      assert WholeRefund(trace[i].db, r);
    }
  }

  /**
   * The insert of a refund row always commits, for the whole payment; and after it the
   * requests stay within the payment if and only if the check for a live refund, which
   * the worker made earlier, would still pass at the insert.
   */
  lemma InsertWithinIff(fsm: set<Edge>, trace: seq<State>, i: nat, w: nat)
    requires Run(fsm, trace) && i + 1 < |trace| && w in trace[i].workers && trace[i].workers[w].NoRefundYet?
    requires Next(fsm, trace[i], InsertRefundRow(w)) == Some(trace[i + 1])
    ensures
      var db, db', p := trace[i].db, trace[i + 1].db, trace[i].workers[w].payment;
      && p < |db.payments| && db'.payments == db.payments
      && db'.refunds == db.refunds + [Refund(p, None, RefundStatus.Pending, db.payments[p].amount, db.payments[p].currency)]
      && (Sum(db'.refunds, RequestedW(p)) <= db.payments[p].amount <==> !HasLiveRefund(db.refunds, p))
  {
    RunStaysWhole(fsm, trace, i);
    assert WholeRead(trace[i].db, trace[i].workers[w]);
    AmountsOf(fsm, trace, i, trace[i].workers[w].payment);
    InsertRequests(fsm, trace[i], w);
  }

  lemma InsertRequests(fsm: set<Edge>, s: State, w: nat)
    requires RefundsWhole(s) && w in s.workers && s.workers[w].NoRefundYet? && s.workers[w].payment < |s.db.payments|
    requires s.workers[w].remaining == s.db.payments[s.workers[w].payment].amount > 0
    ensures Next(fsm, s, InsertRefundRow(w)).Some?
    ensures
      var db, db', p := s.db, Next(fsm, s, InsertRefundRow(w)).value.db, s.workers[w].payment;
      && db'.payments == db.payments
      && db'.refunds == db.refunds + [Refund(p, None, RefundStatus.Pending, db.payments[p].amount, db.payments[p].currency)]
      && (Sum(db'.refunds, RequestedW(p)) <= db.payments[p].amount <==> !HasLiveRefund(db.refunds, p))
  {
    var db, p := s.db, s.workers[w].payment;
    forall r | 0 <= r < |db.refunds| && db.refunds[r].paymentId == p
      ensures db.refunds[r].amount == db.payments[p].amount && Live(db.refunds[r].status)
    {
      assert WholeRefund(db, r);
    }
    hide Next, RefundsWhole;
    RefundSteps(fsm, s, w, "");
    SumOfOneAmount(db.refunds, p, db.payments[p].amount);
    SumAppend(db.refunds, Refund(p, None, RefundStatus.Pending, db.payments[p].amount, db.payments[p].currency), RequestedW(p));
    assert HasLiveRefund(db.refunds, p) <==> !NoneFor(db.refunds, p);
  }

  /** In every run a pending refund can be settled if and only if none of its payment has been settled before. */
  lemma PendingSettlesIff(fsm: set<Edge>, trace: seq<State>, i: nat, r: nat)
    requires Run(fsm, trace) && i < |trace| && r < |trace[i].db.refunds|
    ensures
      var db, p := trace[i].db, trace[i].db.refunds[r].paymentId;
      && p < |db.payments|
      && (SettleRefundRow(db, r).Wrote? <==>
            forall k :: 0 <= k < |db.refunds| && db.refunds[k].paymentId == p ==> db.refunds[k].status != RefundStatus.Succeeded)
  {
    RunStaysWhole(fsm, trace, i);
    RunInv(fsm, trace, i);
    var db, p := trace[i].db, trace[i].db.refunds[r].paymentId;
    assert WholeRefund(db, r);
    AmountsOf(fsm, trace, i, p);
    RefundedInFullOrNot(trace[i], p);
    assert PaymentOk(db, p);
    SucceededSum(db.refunds, p);
  }

  lemma {:induction false} SucceededSum(refunds: seq<Refund>, p: nat)
    requires forall r :: 0 <= r < |refunds| && refunds[r].paymentId == p ==> 0 < refunds[r].amount
    ensures 0 <= Sum(refunds, SucceededW(p))
    ensures Sum(refunds, SucceededW(p)) == 0 <==>
      forall k :: 0 <= k < |refunds| && refunds[k].paymentId == p ==> refunds[k].status != RefundStatus.Succeeded
    decreases |refunds|
  {
    if |refunds| > 0 {
      SucceededSum(refunds[..|refunds| - 1], p);
      assert refunds == refunds[..|refunds| - 1] + [refunds[|refunds| - 1]];
    }
  }

  // ---- what serialising the jobs buys ----

  /** Refund jobs serialised per payment: never two of them between their read and their insert. */
  ghost predicate SerialRefunds(s: State) {
    forall v, w :: v in s.workers && w in s.workers && v != w && ReadsForRefund(s.workers[v]) && ReadsForRefund(s.workers[w]) ==>
      s.workers[v].payment != s.workers[w].payment
  }

  /** At most one refund row per payment, and a check that has passed would still pass. */
  ghost predicate SingleRefunds(s: State) {
    && (forall p :: AtMostOne(s.db.refunds, p))
    && (forall w :: w in s.workers && s.workers[w].NoRefundYet? ==> NoneFor(s.db.refunds, s.workers[w].payment))
  }

  lemma InsertKeepsSingle(s: State, w: nat)
    requires SingleRefunds(s) && SerialRefunds(s) && NextRefund(s, InsertRefundRow(w)).Some?
    ensures SingleRefunds(NextRefund(s, InsertRefundRow(w)).value)
  {
    var s' := NextRefund(s, InsertRefundRow(w)).value;
    assert NoneFor(s.db.refunds, s.workers[w].payment);
    forall p ensures AtMostOne(s'.db.refunds, p) {
      assert AtMostOne(s.db.refunds, p);
    }
    forall v | v in s'.workers && s'.workers[v].NoRefundYet? ensures NoneFor(s'.db.refunds, s'.workers[v].payment) {
      assert v != w && s'.workers[v] == s.workers[v];
      assert NoneFor(s.db.refunds, s.workers[v].payment);
    }
  }

  lemma OthersKeepSingle(fsm: set<Edge>, s: State, step: Step)
    requires SingleRefunds(s) && RefundsWhole(s) && Next(fsm, s, step).Some? && !step.InsertRefundRow?
    requires RowsGrow(s.db, Next(fsm, s, step).value.db)
    ensures SingleRefunds(Next(fsm, s, step).value)
  {
    var s' := Next(fsm, s, step).value;
    hide Next;
    StepFrames(fsm, s, step);
    forall r | 0 <= r < |s.db.refunds| ensures Live(s.db.refunds[r].status) && s'.db.refunds[r].paymentId == s.db.refunds[r].paymentId {
      assert WholeRefund(s.db, r) && RefundGrows(s.db.refunds[r], s'.db.refunds[r]);
    }
    forall p ensures AtMostOne(s'.db.refunds, p) {
      assert AtMostOne(s.db.refunds, p);
    }
    hide RowsGrow, RefundsWhole, Frame;
    forall w | w in s'.workers && s'.workers[w].NoRefundYet? ensures NoneFor(s'.db.refunds, s'.workers[w].payment) {
      ReadOrigin(fsm, s, step, w);
      assert NoneFor(s.db.refunds, s'.workers[w].payment);
    }
  }

  lemma {:induction false} SerialRunsKeepSingle(fsm: set<Edge>, trace: seq<State>, i: nat)
    requires Run(fsm, trace) && i < |trace|
    requires forall k :: 0 <= k < i ==> SerialRefunds(trace[k])
    ensures SingleRefunds(trace[i])
    decreases i
  {
    if i > 0 {
      SerialRunsKeepSingle(fsm, trace, i - 1);
      RunStaysWhole(fsm, trace, i - 1);
      RunInv(fsm, trace, i - 1);
      var step := StepInto(fsm, trace, i);
      hide SingleRefunds, SerialRefunds, RefundsWhole, Inv, Run, Next;
      StepKeepsSingle(fsm, trace[i - 1], step);
    }
  }

  lemma StepKeepsSingle(fsm: set<Edge>, s: State, step: Step)
    requires Inv(fsm, s) && RefundsWhole(s) && SingleRefunds(s) && SerialRefunds(s) && Next(fsm, s, step).Some?
    ensures SingleRefunds(Next(fsm, s, step).value)
  {
    EveryStep(fsm, s, step);
    assert RowsGrow(s.db, Next(fsm, s, step).value.db);
    hide SingleRefunds, SerialRefunds, RefundsWhole, Inv, Good, RowsGrow;
    hide NextBooking, NextInbox, NextWebhook, NextPayout, NextRefund, NextEnvironment;
    if step.InsertRefundRow? {
      InsertKeepsSingle(s, step.w);
    } else {
      OthersKeepSingle(fsm, s, step);
    }
  }

  /**
   * So if refund jobs are serialised per payment throughout a run, the refunds requested
   * for a payment never add up to more than it, and every pending one can be settled.
   */
  lemma SerialRefundsStayWithin(fsm: set<Edge>, trace: seq<State>, i: nat, p: nat)
    requires Run(fsm, trace) && i < |trace| && p < |trace[i].db.payments|
    requires forall k :: 0 <= k < i ==> SerialRefunds(trace[k])
    ensures Sum(trace[i].db.refunds, RequestedW(p)) <= trace[i].db.payments[p].amount
    ensures forall r :: 0 <= r < |trace[i].db.refunds| && trace[i].db.refunds[r].paymentId == p
                        && trace[i].db.refunds[r].status == RefundStatus.Pending ==>
      SettleRefundRow(trace[i].db, r).Wrote?
  {
    SerialRunsKeepSingle(fsm, trace, i);
    var refunds := trace[i].db.refunds;
    assert AtMostOne(refunds, p);
    RequestedWithinIff(fsm, trace, i, p);
    forall r | 0 <= r < |refunds| && refunds[r].paymentId == p && refunds[r].status == RefundStatus.Pending
      ensures SettleRefundRow(trace[i].db, r).Wrote?
    {
      PendingSettlesIff(fsm, trace, i, r);
    }
  }

  // ---- two workers ----

  /** One worker reads the payment. */
  lemma RefundReads(fsm: set<Edge>, s: State, w: nat, b: nat, p: nat)
    requires w !in s.workers && CreateRefund(b) in s.jobs
    requires CapturedForBooking(s.db.payments, b) == Some(p) && s.db.payments[p].intent.Some?
    ensures Follows(fsm, s, Goto(s, w, FoundCaptured(p, s.db.payments[p].amount - s.db.payments[p].refunded)))
  {
    hide CapturedForBooking, Next;
    RefundCheckSteps(fsm, s, w, b);
  }

  lemma RefundChecks(fsm: set<Edge>, s: State, w: nat, p: nat, remaining: int)
    requires w in s.workers && s.workers[w] == FoundCaptured(p, remaining) && !HasLiveRefund(s.db.refunds, p) && remaining > 0
    ensures Follows(fsm, s, Goto(s, w, NoRefundYet(p, remaining)))
  {
    hide Next;
    RefundCheckSteps(fsm, s, w, 0);
  }

  function Requested(s: State, p: nat, remaining: int): Tables
    requires p < |s.db.payments|
  {
    s.db.(refunds := s.db.refunds + [Refund(p, None, RefundStatus.Pending, remaining, s.db.payments[p].currency)])
  }

  lemma RefundInserts(fsm: set<Edge>, s: State, w: nat, p: nat, remaining: int)
    requires w in s.workers && s.workers[w] == NoRefundYet(p, remaining) && p < |s.db.payments| && remaining > 0
    ensures Follows(fsm, s, Goto(s.(db := Requested(s, p, remaining)), w, RefundInserted(|s.db.refunds|)))
  {
    hide Next;
    RefundSteps(fsm, s, w, "");
  }

  /** A refund job up to the provider's answer, its reference not yet attached. */
  function Asked(s: State, w: nat, p: nat, ref: string): seq<State>
    requires p < |s.db.payments|
  {
    var amount := s.db.payments[p].amount;
    var s1 := Goto(s, w, FoundCaptured(p, amount));
    var s2 := Goto(s1, w, NoRefundYet(p, amount));
    var s3 := Goto(s2.(db := Requested(s2, p, amount)), w, RefundInserted(|s.db.refunds|));
    [s, s1, s2, s3, Goto(s3, w, RefundAccepted(|s.db.refunds|, ref))]
  }

  lemma RefundAsks(fsm: set<Edge>, s: State, w: nat, b: nat, p: nat, ref: string)
    requires w !in s.workers && CreateRefund(b) in s.jobs && p < |s.db.payments| && s.db.payments[p].refunded == 0
    requires CapturedForBooking(s.db.payments, b) == Some(p) && s.db.payments[p].intent.Some?
    requires s.db.payments[p].amount > 0 && !HasLiveRefund(s.db.refunds, p)
    ensures var path := Asked(s, w, p, ref); forall k :: 0 <= k < 4 ==> Follows(fsm, path[k], path[k + 1])
  {
    hide Follows;
    var path, amount := Asked(s, w, p, ref), s.db.payments[p].amount;
    RefundReads(fsm, s, w, b, p);
    hide CapturedForBooking;
    RefundChecks(fsm, path[1], w, p, amount);
    hide HasLiveRefund;
    RefundInserts(fsm, path[2], w, p, amount);
    RefundAccepts(fsm, path[3], w, |s.db.refunds|, ref);
  }

  lemma RefundAccepts(fsm: set<Edge>, s: State, w: nat, r: nat, ref: string)
    requires w in s.workers && s.workers[w] == RefundInserted(r)
    ensures Follows(fsm, s, Goto(s, w, RefundAccepted(r, ref)))
  {
    hide Next;
    RefundSteps(fsm, s, w, ref);
  }

  /**
   * Without serialisation they can: whenever a create-refund job is queued for a
   * captured payment with no refund yet, delivering it to two workers whose reads
   * come before both inserts requests the whole remainder twice.
   */
  lemma TwoWorkersRefundTwice(fsm: set<Edge>, s: State, v: nat, w: nat, b: nat, p: nat) returns (path: seq<State>)
    requires v != w && v !in s.workers && w !in s.workers && CreateRefund(b) in s.jobs
    requires CapturedForBooking(s.db.payments, b) == Some(p) && s.db.payments[p].intent.Some?
    requires s.db.payments[p].refunded < s.db.payments[p].amount && !HasLiveRefund(s.db.refunds, p)
    ensures |path| == 7 && path[0] == s && forall k :: 0 <= k < 6 ==> Follows(fsm, path[k], path[k + 1])
    ensures
      var row := s.db.payments[p];
      var r := Refund(p, None, RefundStatus.Pending, row.amount - row.refunded, row.currency);
      path[6].db.refunds == s.db.refunds + [r, r] && path[6].db.payments == s.db.payments
  {
    hide Follows, CapturedForBooking, HasLiveRefund;
    var n := |s.db.refunds|;
    var remaining := s.db.payments[p].amount - s.db.payments[p].refunded;
    BothSeeNoRefund(fsm, s, v, w, b, p);
    var s1 := Goto(s, v, FoundCaptured(p, remaining));
    var s2 := Goto(s1, w, FoundCaptured(p, remaining));
    var s3 := Goto(s2, v, NoRefundYet(p, remaining));
    var s4 := Goto(s3, w, NoRefundYet(p, remaining));
    var s5 := Goto(s4.(db := Requested(s4, p, remaining)), v, RefundInserted(n));
    var s6 := Goto(s5.(db := Requested(s5, p, remaining)), w, RefundInserted(n + 1));
    RefundInserts(fsm, s4, v, p, remaining);
    RefundInserts(fsm, s5, w, p, remaining);
    path := [s, s1, s2, s3, s4, s5, s6];
  }

  /** Both workers read the payment and look for a refund before either inserts one. */
  lemma BothSeeNoRefund(fsm: set<Edge>, s: State, v: nat, w: nat, b: nat, p: nat)
    requires v != w && v !in s.workers && w !in s.workers && CreateRefund(b) in s.jobs
    requires CapturedForBooking(s.db.payments, b) == Some(p) && s.db.payments[p].intent.Some?
    requires s.db.payments[p].refunded < s.db.payments[p].amount && !HasLiveRefund(s.db.refunds, p)
    ensures
      var remaining := s.db.payments[p].amount - s.db.payments[p].refunded;
      var s1 := Goto(s, v, FoundCaptured(p, remaining));
      var s2 := Goto(s1, w, FoundCaptured(p, remaining));
      var s3 := Goto(s2, v, NoRefundYet(p, remaining));
      var s4 := Goto(s3, w, NoRefundYet(p, remaining));
      Follows(fsm, s, s1) && Follows(fsm, s1, s2) && Follows(fsm, s2, s3) && Follows(fsm, s3, s4)
  {
    hide Follows;
    var remaining := s.db.payments[p].amount - s.db.payments[p].refunded;
    var s1 := Goto(s, v, FoundCaptured(p, remaining));
    var s2 := Goto(s1, w, FoundCaptured(p, remaining));
    var s3 := Goto(s2, v, NoRefundYet(p, remaining));
    RefundReads(fsm, s, v, b, p);
    RefundReads(fsm, s1, w, b, p);
    hide CapturedForBooking, HasLiveRefund;
    RefundChecks(fsm, s2, v, p, remaining);
    RefundChecks(fsm, s3, w, p, remaining);
  }
}
