/**
 * The ledger as a journal: in every reachable state it is, entry by entry, one whole
 * group of legs for each captured payment, succeeded refund, payout, settlement and
 * manual adjustment, each exactly once, and nothing else.
 */
module EscrowJournal {
  import opened Common
  import opened BookingFsm
  import opened Pricing
  import opened Bookings
  import opened Ledger
  import opened EscrowTables
  import opened EscrowInvariant
  import opened EscrowProtocol
  import opened EscrowFrames
  import opened EscrowSafety
  import opened EscrowTheorems

  /** Why a group is in the ledger. A split names the payment that funds it. */
  datatype Cause =
    | CaptureOf(payment: nat)
    | RefundOf(refund: nat)
    | SplitOf(payout: nat, funds: nat)
    | SettleOf(payout: nat)
    | AdjustmentOf(index: nat)

  /** The cause without the funding payment: what must be posted exactly once. */
  function Subject(c: Cause): Cause {
    if c.SplitOf? then SplitOf(c.payout, 0) else c
  }

  /** The rows say that this must have been posted. */
  predicate Due(db: Tables, c: Cause) {
    match c
    case CaptureOf(p) => p < |db.payments| && IsCaptured(db.payments[p].status)
    case RefundOf(r) => r < |db.refunds| && db.refunds[r].status == RefundStatus.Succeeded
    case SplitOf(q, _) => q < |db.payouts|
    case SettleOf(q) => q < |db.payouts| && db.payouts[q].status == PayoutStatus.Paid
    case AdjustmentOf(k) => k < |db.adjustments|
  }

  /** The rows that a cause's legs are made of are there. */
  predicate Backed(db: Tables, c: Cause) {
    match c
    case RefundOf(r) => r < |db.refunds| && db.refunds[r].paymentId < |db.payments|
    case SplitOf(q, p) =>
      q < |db.payouts| && db.payouts[q].bookingId < |db.bookings| && CapturedFor(db, p, db.payouts[q].bookingId)
    case _ => true
  }

  predicate Sound(db: Tables, c: Cause) {
    Due(db, c) && Backed(db, c)
  }

  function LegsOf(db: Tables, c: Cause): seq<Leg> {
    if !Sound(db, c) then []
    else
      match c
      case CaptureOf(p) => CaptureLegs(db.payments[p], p)
      case RefundOf(r) => RefundLegs(db.payments[db.refunds[r].paymentId], db.refunds[r].paymentId, db.refunds[r].amount)
      case SplitOf(q, p) => SplitLegs(db.bookings[db.payouts[q].bookingId].money, db.payouts[q].bookingId, p, q)
      case SettleOf(q) => SettleLegs(db.payouts[q], q)
      case AdjustmentOf(k) => AdjustLegs(db.adjustments[k])
  }

  function CurrencyOf(db: Tables, c: Cause): string {
    if !Sound(db, c) then ""
    else
      match c
      case CaptureOf(p) => db.payments[p].currency
      case RefundOf(r) => db.payments[db.refunds[r].paymentId].currency
      case SplitOf(q, _) => db.bookings[db.payouts[q].bookingId].currency
      case SettleOf(q) => db.payouts[q].currency
      case AdjustmentOf(k) => db.adjustments[k].currency
  }

  /** One group per cause, in order; a group's id is the ledger's length when it was posted. */
  function Journal(db: Tables, book: seq<Cause>): seq<Entry> {
    if book == [] then []
    else
      var before, c := Journal(db, book[..|book| - 1]), book[|book| - 1];
      before + Rows(|before|, CurrencyOf(db, c), Positive(LegsOf(db, c)))
  }

  /** The book explains the ledger: all of it, and of every due posting exactly one. */
  ghost predicate Explains(db: Tables, book: seq<Cause>) {
    && db.ledger == Journal(db, book)
    && (forall k :: 0 <= k < |book| ==> Sound(db, book[k]) && Positive(LegsOf(db, book[k])) != [])
    && (forall k, l :: 0 <= k < l < |book| ==> Subject(book[k]) != Subject(book[l]))
    && (forall c :: Due(db, c) ==> Noted(book, c))
  }

  ghost predicate Noted(book: seq<Cause>, c: Cause) {
    exists k :: 0 <= k < |book| && Subject(book[k]) == Subject(c)
  }

  // ---- later tables tell the same story ----

  /** Rows only grow; what a cause's legs are made of never changes. */
  ghost predicate Grows(db: Tables, db': Tables) {
    RowsGrow(db, db') && BookingsGrow(db.bookings, db'.bookings)
  }

  lemma SoundStays(db: Tables, db': Tables, c: Cause)
    requires Grows(db, db') && Sound(db, c)
    ensures Sound(db', c) && LegsOf(db', c) == LegsOf(db, c) && CurrencyOf(db', c) == CurrencyOf(db, c)
  {
    match c
    case CaptureOf(p) =>
      assert PaymentGrows(db.payments[p], db'.payments[p]);
    case RefundOf(r) =>
      assert RefundGrows(db.refunds[r], db'.refunds[r]);
      assert PaymentGrows(db.payments[db.refunds[r].paymentId], db'.payments[db.refunds[r].paymentId]);
    case SplitOf(q, p) =>
      assert PayoutGrows(db.payouts[q], db'.payouts[q]);
      assert PaymentGrows(db.payments[p], db'.payments[p]);
      assert RowGrows(db.bookings[db.payouts[q].bookingId], db'.bookings[db.payouts[q].bookingId]);
    case SettleOf(q) =>
      assert PayoutGrows(db.payouts[q], db'.payouts[q]);
    case AdjustmentOf(k) =>
  }

  lemma {:induction false} JournalStays(db: Tables, db': Tables, book: seq<Cause>)
    requires Grows(db, db') && forall k :: 0 <= k < |book| ==> Sound(db, book[k])
    ensures Journal(db', book) == Journal(db, book)
    decreases |book|
  {
    if book != [] {
      JournalStays(db, db', book[..|book| - 1]);
      SoundStays(db, db', book[|book| - 1]);
    }
  }

  lemma ExplainsStays(db: Tables, db': Tables, book: seq<Cause>)
    requires Explains(db, book) && Grows(db, db') && db'.ledger == db.ledger
    requires forall c :: Due(db', c) ==> Due(db, c)
    ensures Explains(db', book)
  {
    hide Grows;
    JournalStays(db, db', book);
    forall k | 0 <= k < |book| ensures Sound(db', book[k]) && Positive(LegsOf(db', book[k])) != [] {
      SoundStays(db, db', book[k]);
    }
  }

  lemma DueBySubject(db: Tables, c: Cause, d: Cause)
    requires Subject(c) == Subject(d)
    ensures Due(db, c) == Due(db, d)
  {
  }

  /** One posting adds one cause that was not due before. */
  lemma ExplainsOneMore(db: Tables, db': Tables, book: seq<Cause>, c: Cause)
    requires Explains(db, book) && Grows(db, db')
    requires !Due(db, c) && Sound(db', c) && Positive(LegsOf(db', c)) != []
    requires db'.ledger == db.ledger + Rows(|db.ledger|, CurrencyOf(db', c), Positive(LegsOf(db', c)))
    requires forall d :: Due(db', d) ==> Due(db, d) || Subject(d) == Subject(c)
    ensures Explains(db', book + [c])
  {
    hide Grows, LegsOf, CurrencyOf, Positive, Sound, Due;
    var book' := book + [c];
    assert book'[..|book|] == book;
    JournalStays(db, db', book);
    BookStays(db, db', book, c);
    forall d | Due(db', d) ensures Noted(book', d) {
      if Due(db, d) {
        assert Noted(book, d);
        var k :| 0 <= k < |book| && Subject(book[k]) == Subject(d);
        assert book'[k] == book[k];
      } else {
        assert book'[|book|] == c;
      }
    }
  }

  lemma BookStays(db: Tables, db': Tables, book: seq<Cause>, c: Cause)
    requires Explains(db, book) && Grows(db, db') && !Due(db, c)
    ensures forall k :: 0 <= k < |book| ==>
      Sound(db', book[k]) && Positive(LegsOf(db', book[k])) != [] && Subject(book[k]) != Subject(c)
  {
    hide Grows, LegsOf, CurrencyOf, Positive;
    forall k | 0 <= k < |book|
      ensures Sound(db', book[k]) && Positive(LegsOf(db', book[k])) != [] && Subject(book[k]) != Subject(c)
    {
      SoundStays(db, db', book[k]);
      if Subject(book[k]) == Subject(c) {
        DueBySubject(db, book[k], c);
      }
    }
  }

  // ---- the postings ----

  lemma PostWrites<T>(db: Tables, currency: string, legs: seq<Leg>, value: T)
    requires Post(db, currency, legs, value).Committed?
    ensures Post(db, currency, legs, value).db.ledger == db.ledger + Rows(|db.ledger|, currency, Positive(legs))
  {
  }

  lemma {:induction false} PositiveKeeps(legs: seq<Leg>, k: nat)
    requires k < |legs| && legs[k].amount > 0
    ensures Positive(legs) != []
    decreases |legs|
  {
    if k < |legs| - 1 {
      PositiveKeeps(legs[..|legs| - 1], k);
    }
  }

  lemma CaptureExplained(db: Tables, e: Event, book: seq<Cause>) returns (book': seq<Cause>)
    requires RowsOk(db) && Explains(db, book) && ApplyCapture(db, e).Committed? && Grows(db, ApplyCapture(db, e).db)
    ensures Explains(ApplyCapture(db, e).db, book')
  {
    var i := PaymentByIntent(db.payments, e.provider, e.intent.value).value;
    var p, db' := db.payments[i], ApplyCapture(db, e).db;
    assert PaymentOk(db, i);
    if !Capturable(p.status) {
      return book;
    }
    var marked := MarkCaptured(db, i).value;
    PostWrites(marked, p.currency, CaptureLegs(p, i), p.bookingId);
    PositiveKeeps(CaptureLegs(p, i), 0);
    assert LegsOf(db', CaptureOf(i)) == CaptureLegs(p, i);
    hide Grows, Explains, ApplyCapture;
    ExplainsOneMore(db, db', book, CaptureOf(i));
    return book + [CaptureOf(i)];
  }

  lemma RefundExplained(db: Tables, e: Event, book: seq<Cause>) returns (book': seq<Cause>)
    requires RowsOk(db) && Explains(db, book) && ApplyRefund(db, e).Committed? && Grows(db, ApplyRefund(db, e).db)
    ensures Explains(ApplyRefund(db, e).db, book')
  {
    var i := PaymentByIntent(db.payments, e.provider, e.intent.value).value;
    var r := PendingRefund(db.refunds, i, e.refundRef.value);
    if r.None? {
      return book;
    }
    var p, amount, db' := db.payments[i], db.refunds[r.value].amount, ApplyRefund(db, e).db;
    assert PaymentOk(db, i) && RefundOk(db, r.value);
    var settled := SettleRefundRow(db, r.value).value;
    PostWrites(settled, p.currency, RefundLegs(p, i, amount), p.bookingId);
    PositiveKeeps(RefundLegs(p, i, amount), 0);
    assert LegsOf(db', RefundOf(r.value)) == RefundLegs(p, i, amount);
    hide Grows, Explains, ApplyRefund;
    ExplainsOneMore(db, db', book, RefundOf(r.value));
    return book + [RefundOf(r.value)];
  }

  lemma SplitExplained(db: Tables, b: nat, p: nat, book: seq<Cause>) returns (book': seq<Cause>)
    requires RowsOk(db) && Explains(db, book) && b < |db.bookings| && CapturedFor(db, p, b)
    requires SplitEscrow(db, b, p).Committed? && Grows(db, SplitEscrow(db, b, p).db)
    ensures Explains(SplitEscrow(db, b, p).db, book')
  {
    var q, row, db' := |db.payouts|, db.bookings[b], SplitEscrow(db, b, p).db;
    var inserted := InsertPayout(db, b, HostShare(row.money), row.currency, db.payments[p].provider);
    if inserted.NoRow? {
      return book;
    }
    var legs := SplitLegs(row.money, b, p, q);
    PostWrites(inserted.value, row.currency, legs, Some(q));
    PositiveKeeps(legs, 1);
    assert db'.payouts[q].bookingId == b;
    assert LegsOf(db', SplitOf(q, p)) == legs;
    hide Grows, Explains, SplitEscrow;
    ExplainsOneMore(db, db', book, SplitOf(q, p));
    return book + [SplitOf(q, p)];
  }

  lemma SettleExplained(db: Tables, q: nat, book: seq<Cause>) returns (book': seq<Cause>)
    requires RowsOk(db) && Explains(db, book) && SettlePayout(db, q).Committed? && Grows(db, SettlePayout(db, q).db)
    ensures Explains(SettlePayout(db, q).db, book')
  {
    var db' := SettlePayout(db, q).db;
    if MarkPaid(db, q).NoRow? {
      return book;
    }
    assert PayoutOk(db, q);
    var legs := SettleLegs(db.payouts[q], q);
    PostWrites(MarkPaid(db, q).value, db.payouts[q].currency, legs, true);
    PositiveKeeps(legs, 0);
    assert LegsOf(db', SettleOf(q)) == legs;
    hide Grows, Explains, SettlePayout;
    ExplainsOneMore(db, db', book, SettleOf(q));
    return book + [SettleOf(q)];
  }

  lemma AdjustExplained(db: Tables, a: Adjustment, book: seq<Cause>) returns (book': seq<Cause>)
    requires Explains(db, book) && Adjust(db, a).Committed? && Grows(db, Adjust(db, a).db)
    ensures Explains(Adjust(db, a).db, book')
  {
    var k, db' := |db.adjustments|, Adjust(db, a).db;
    PostWrites(db.(adjustments := db.adjustments + [a]), a.currency, AdjustLegs(a), ());
    PositiveKeeps(AdjustLegs(a), 0);
    assert db'.adjustments[k] == a;
    hide Grows, Explains, Adjust;
    ExplainsOneMore(db, db', book, AdjustmentOf(k));
    return book + [AdjustmentOf(k)];
  }

  // ---- every step ----

  /** The ledger, the adjustments and the set of succeeded refunds are as they were. */
  ghost predicate Unposted(db: Tables, db': Tables) {
    && db'.ledger == db.ledger && db'.adjustments == db.adjustments
    && forall r :: 0 <= r < |db'.refunds| && db'.refunds[r].status == RefundStatus.Succeeded ==>
         r < |db.refunds| && db.refunds[r].status == RefundStatus.Succeeded
  }

  /** With the same ledger, reconciled tables owe the same postings. */
  lemma UnpostedOwesNothing(db: Tables, db': Tables)
    requires Reconciled(db) && Reconciled(db') && Unposted(db, db')
    ensures forall c :: Due(db', c) ==> Due(db, c)
  {
    forall c | Due(db', c) ensures Due(db, c) {
      match c
      case CaptureOf(p) =>
        assert Closed(db', CapturePosts(p)) == Measure(db'.ledger, CapturePosts(p)) == Closed(db, CapturePosts(p));
      case SplitOf(q, _) =>
        assert Closed(db', SplitPosts(q)) == Measure(db'.ledger, SplitPosts(q)) == Closed(db, SplitPosts(q));
      case SettleOf(q) =>
        assert Closed(db', SettlePosts(q)) == Measure(db'.ledger, SettlePosts(q)) == Closed(db, SettlePosts(q));
      case RefundOf(_) =>
      case AdjustmentOf(_) =>
    }
  }

  lemma RefundUnposted(s: State, step: Step)
    requires IsRefundStep(step) && NextRefund(s, step).Some?
    ensures Unposted(s.db, NextRefund(s, step).value.db)
  {
    hide CapturedForBooking, HasLiveRefund, RefundRefTaken;
  }

  lemma StepUnposted(fsm: set<Edge>, s: State, step: Step)
    requires !Posts(step) && Next(fsm, s, step).Some?
    ensures Unposted(s.db, Next(fsm, s, step).value.db)
  {
    hide NextBooking, NextInbox, NextWebhook, NextPayout, NextRefund, NextEnvironment;
    if IsRefundStep(step) {
      RefundUnposted(s, step);
    } else {
      StepFrames(fsm, s, step);
    }
  }

  lemma WebhookExplained(fsm: set<Edge>, s: State, step: Step, book: seq<Cause>) returns (book': seq<Cause>)
    requires RowsOk(s.db) && Explains(s.db, book) && (step.CaptureTx? || step.RefundTx?) && NextWebhook(fsm, s, step).Some?
    requires Grows(s.db, NextWebhook(fsm, s, step).value.db)
    ensures Explains(NextWebhook(fsm, s, step).value.db, book')
  {
    hide Explains, Grows, RowsOk, ApplyCapture, ApplyRefund;
    var e := s.db.events[s.workers[step.w].event];
    book' := book;
    if step.CaptureTx? {
      if ApplyCapture(s.db, e).Committed? {
        book' := CaptureExplained(s.db, e, book);
      }
    } else if ApplyRefund(s.db, e).Committed? {
      book' := RefundExplained(s.db, e, book);
    }
  }

  lemma PayoutExplained(fsm: set<Edge>, s: State, step: Step, book: seq<Cause>) returns (book': seq<Cause>)
    requires RowsOk(s.db) && Explains(s.db, book) && IsPayoutStep(step) && Posts(step) && NextPayout(s, step).Some?
    requires forall w :: w in s.workers ==> WorkerOk(fsm, s.db, s.now, s.workers[w])
    requires Grows(s.db, NextPayout(s, step).value.db)
    ensures Explains(NextPayout(s, step).value.db, book')
  {
    hide Explains, Grows, RowsOk, SettlePayout, Adjust, SplitEscrow;
    assert step.Split? ==> WorkerOk(fsm, s.db, s.now, s.workers[step.w]);
    book' := book;
    if step.AdminAdjust? {
      book' := AdjustExplained(s.db, step.a, book);
    } else if step.SettleByProvider? {
      book' := SettleExplained(s.db, step.q, book);
    } else if step.SettleMock? {
      if SettlePayout(s.db, s.workers[step.w].payout).Committed? {
        book' := SettleExplained(s.db, s.workers[step.w].payout, book);
      }
    } else {
      var b, p := s.workers[step.w].booking, s.workers[step.w].payment;
      if SplitEscrow(s.db, b, p).Committed? && SplitEscrow(s.db, b, p).value.Some? {
        book' := SplitExplained(s.db, b, p, book);
      }
    }
  }

  lemma GoodGrows(fsm: set<Edge>, s: State, s': State)
    requires Inv(fsm, s) && Good(fsm, s, s')
    ensures RowsOk(s.db) && Reconciled(s.db) && Reconciled(s'.db) && Grows(s.db, s'.db)
    ensures forall w :: w in s.workers ==> WorkerOk(fsm, s.db, s.now, s.workers[w])
  {
  }

  lemma StepExplained(fsm: set<Edge>, s: State, step: Step, book: seq<Cause>) returns (book': seq<Cause>)
    requires Inv(fsm, s) && Explains(s.db, book) && Next(fsm, s, step).Some?
    ensures Explains(Next(fsm, s, step).value.db, book')
  {
    hide Inv, Good, Explains, Grows, RowsOk, Reconciled, WorkerOk, Later, Unposted, Due;
    hide NextBooking, NextInbox, NextWebhook, NextPayout, NextRefund, NextEnvironment;
    EveryStep(fsm, s, step);
    GoodGrows(fsm, s, Next(fsm, s, step).value);
    if !Posts(step) {
      StepUnposted(fsm, s, step);
      UnpostedExplained(s.db, Next(fsm, s, step).value.db, book);
      book' := book;
    } else if IsWebhookStep(step) {
      book' := WebhookExplained(fsm, s, step, book);
    } else {
      book' := PayoutExplained(fsm, s, step, book);
    }
  }

  lemma UnpostedExplained(db: Tables, db': Tables, book: seq<Cause>)
    requires Explains(db, book) && Grows(db, db') && Reconciled(db) && Reconciled(db') && Unposted(db, db')
    ensures Explains(db', book)
  {
    hide Explains, Grows, Reconciled, Due;
    UnpostedOwesNothing(db, db');
    ExplainsStays(db, db', book);
  }

  lemma NothingToExplain(now: int)
    ensures Explains(Init(now).db, [])
  {
  }

  /** In every reachable state the ledger is the journal of a book of causes. */
  lemma {:induction false} LedgerIsJournal(fsm: set<Edge>, trace: seq<State>, i: nat) returns (book: seq<Cause>)
    requires Run(fsm, trace) && i < |trace|
    ensures Explains(trace[i].db, book)
    decreases i
  {
    if i == 0 {
      book := [];
      NothingToExplain(trace[0].now);
    } else {
      hide Inv, Explains, Next, Run;
      book := LedgerIsJournal(fsm, trace, i - 1);
      RunInv(fsm, trace, i - 1);
      var step := StepInto(fsm, trace, i);
      book := StepExplained(fsm, trace[i - 1], step, book);
    }
  }

  // ---- whole groups ----

  /** The entries under one group id, in order. */
  function Under(ledger: seq<Entry>, group: nat): seq<Entry> {
    if ledger == [] then []
    else
      var last := ledger[|ledger| - 1];
      Under(ledger[..|ledger| - 1], group) + if last.group == group then [last] else []
  }

  lemma {:induction false} UnderNone(ledger: seq<Entry>, group: nat)
    requires forall i :: 0 <= i < |ledger| ==> ledger[i].group != group
    ensures Under(ledger, group) == []
    decreases |ledger|
  {
    if ledger != [] {
      UnderNone(ledger[..|ledger| - 1], group);
    }
  }

  lemma {:induction false} UnderAppend(before: seq<Entry>, group: nat, currency: string, legs: seq<Leg>, h: nat)
    ensures Under(before + Rows(h, currency, legs), group)
            == Under(before, group) + if h == group then Rows(h, currency, legs) else []
    decreases |legs|
  {
    var rows := Rows(h, currency, legs);
    if legs == [] {
      assert before + rows == before;
    } else {
      var n := |legs| - 1;
      UnderAppend(before, group, currency, legs[..n], h);
      assert (before + rows)[..|before| + n] == before + Rows(h, currency, legs[..n]);
      assert rows == Rows(h, currency, legs[..n]) + [rows[n]];
    }
  }

  lemma {:induction false} JournalGroupsAreOld(db: Tables, book: seq<Cause>)
    requires forall k :: 0 <= k < |book| ==> Positive(LegsOf(db, book[k])) != []
    ensures GroupsAreOld(Journal(db, book))
    decreases |book|
  {
    if book != [] {
      JournalGroupsAreOld(db, book[..|book| - 1]);
    }
  }

  lemma EntryIsOld(db: Tables, book: seq<Cause>, i: nat)
    requires forall k :: 0 <= k < |book| ==> Positive(LegsOf(db, book[k])) != []
    requires i < |Journal(db, book)|
    ensures Journal(db, book)[i].group < |Journal(db, book)|
  {
    JournalGroupsAreOld(db, book);
  }

  /** What stands under a group id before and after the last cause of a book is posted. */
  lemma UnderLastCause(db: Tables, book: seq<Cause>, group: nat)
    requires book != [] && forall k :: 0 <= k < |book| ==> Positive(LegsOf(db, book[k])) != []
    ensures
      var before, c := Journal(db, book[..|book| - 1]), book[|book| - 1];
      && Journal(db, book) == before + Rows(|before|, CurrencyOf(db, c), Positive(LegsOf(db, c)))
      && (group < |before| ==> Under(Journal(db, book), group) == Under(before, group))
      && (group == |before| ==> Under(Journal(db, book), group) == Rows(group, CurrencyOf(db, c), Positive(LegsOf(db, c))))
  {
    hide LegsOf, CurrencyOf, Positive;
    var n := |book| - 1;
    var before := Journal(db, book[..n]);
    JournalGroupsAreOld(db, book[..n]);
    UnderAppend(before, group, CurrencyOf(db, book[n]), Positive(LegsOf(db, book[n])), |before|);
    if group == |before| {
      UnderNone(before, group);
    }
  }

  /** The k-th cause has a group of its own, which holds exactly its positive legs. */
  lemma {:induction false} GroupOfCause(db: Tables, book: seq<Cause>, k: nat) returns (group: nat)
    requires forall l :: 0 <= l < |book| ==> Positive(LegsOf(db, book[l])) != []
    requires k < |book|
    ensures Under(Journal(db, book), group) == Rows(group, CurrencyOf(db, book[k]), Positive(LegsOf(db, book[k])))
    ensures group < |Journal(db, book)|
    decreases |book|
  {
    hide LegsOf, CurrencyOf, Positive, Journal, Under;
    var n := |book| - 1;
    if k == n {
      group := |Journal(db, book[..n])|;
    } else {
      group := GroupOfCause(db, book[..n], k);
    }
    UnderLastCause(db, book, group);
  }

  /** Every entry belongs to the group of some cause of the book. */
  lemma {:induction false} CauseOfEntry(db: Tables, book: seq<Cause>, i: nat) returns (k: nat)
    requires forall l :: 0 <= l < |book| ==> Positive(LegsOf(db, book[l])) != []
    requires i < |Journal(db, book)|
    ensures k < |book|
    ensures Under(Journal(db, book), Journal(db, book)[i].group)
            == Rows(Journal(db, book)[i].group, CurrencyOf(db, book[k]), Positive(LegsOf(db, book[k])))
    decreases |book|
  {
    var n := |book| - 1;
    assert book != [];
    hide LegsOf, CurrencyOf, Positive, Journal, Under, GroupsAreOld;
    var before := Journal(db, book[..n]);
    UnderLastCause(db, book, Journal(db, book)[i].group);
    if i < |before| {
      EntryIsOld(db, book[..n], i);
      k := CauseOfEntry(db, book[..n], i);
    } else {
      k := n;
    }
  }

  /**
   * In every reachable state, whatever must have been posted - a captured payment, a
   * succeeded refund, a payout's split, a settlement, an adjustment - is in the ledger
   * as one whole group: all its positive legs with their amounts, in one currency,
   * under one group id, and nothing else under that id.
   */
  lemma PostedAsOneGroup(fsm: set<Edge>, trace: seq<State>, i: nat, c: Cause) returns (posted: Cause, group: nat)
    requires Run(fsm, trace) && i < |trace| && Due(trace[i].db, c)
    ensures Subject(posted) == Subject(c) && Sound(trace[i].db, posted)
    ensures Under(trace[i].db.ledger, group)
            == Rows(group, CurrencyOf(trace[i].db, posted), Positive(LegsOf(trace[i].db, posted)))
  {
    var book := LedgerIsJournal(fsm, trace, i);
    assert Noted(book, c);
    var k :| 0 <= k < |book| && Subject(book[k]) == Subject(c);
    posted := book[k];
    group := GroupOfCause(trace[i].db, book, k);
  }

  /** And nothing else is: every entry of the ledger belongs to the whole group of a posting that is due. */
  lemma NothingElsePosted(fsm: set<Edge>, trace: seq<State>, i: nat, e: nat) returns (posted: Cause)
    requires Run(fsm, trace) && i < |trace| && e < |trace[i].db.ledger|
    ensures Sound(trace[i].db, posted)
    ensures
      var group := trace[i].db.ledger[e].group;
      Under(trace[i].db.ledger, group) == Rows(group, CurrencyOf(trace[i].db, posted), Positive(LegsOf(trace[i].db, posted)))
  {
    var book := LedgerIsJournal(fsm, trace, i);
    var k := CauseOfEntry(trace[i].db, book, e);
    posted := book[k];
  }
}
