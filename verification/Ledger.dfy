/**
 * The append-only double-entry ledger: posting one group of legs inside a
 * transaction, the balance trigger at COMMIT, and measures over the entries.
 */
module Ledger {
  import opened Common

  datatype Account =
    | ProviderClearing | PlatformEscrow | PlatformRevenue | HostPayable | TaxPayable | GuestRefundClearing

  datatype Direction = Debit | Credit

  datatype Leg = Leg(
    account: Account,
    direction: Direction,
    amount: int,
    bookingId: Option<nat>,
    paymentId: Option<nat>,
    payoutId: Option<nat>)

  datatype Entry = Entry(group: nat, currency: string, leg: Leg)

  // ---- posting ----

  function DebitOf(l: Leg): int {
    if l.direction == Debit then l.amount else 0
  }

  function CreditOf(l: Leg): int {
    if l.direction == Credit then l.amount else 0
  }

  /** The legs that the insert loop writes: it skips every leg that is not positive. */
  function Positive(legs: seq<Leg>): (r: seq<Leg>)
    ensures forall i :: 0 <= i < |r| ==> r[i].amount > 0
  {
    if |legs| == 0 then []
    else Positive(legs[..|legs| - 1]) + if legs[|legs| - 1].amount <= 0 then [] else [legs[|legs| - 1]]
  }

  function Rows(group: nat, currency: string, legs: seq<Leg>): (r: seq<Entry>)
    ensures |r| == |legs| && forall i :: 0 <= i < |r| ==> r[i] == Entry(group, currency, legs[i])
  {
    seq(|legs|, i requires 0 <= i < |legs| => Entry(group, currency, legs[i]))
  }

  /** A fresh group id. Entries carry only earlier ids. */
  function NewGroup(ledger: seq<Entry>): nat {
    |ledger|
  }

  ghost predicate GroupsAreOld(ledger: seq<Entry>) {
    forall i :: 0 <= i < |ledger| ==> ledger[i].group < |ledger|
  }

  /** The deferred trigger's verdict on one entry group. */
  predicate GroupBalanced(ledger: seq<Entry>, group: nat) {
    && Sum(ledger, GroupSigned(group)) == 0
    && forall i, j :: 0 <= i < |ledger| && 0 <= j < |ledger| && ledger[i].group == group && ledger[j].group == group ==>
         ledger[i].currency == ledger[j].currency
  }

  function GroupSigned(group: nat): Entry -> int {
    (e: Entry) => if e.group == group then CreditOf(e.leg) - DebitOf(e.leg) else 0
  }

  function DebitW(): Leg -> int { (l: Leg) => DebitOf(l) }

  function CreditW(): Leg -> int { (l: Leg) => CreditOf(l) }

  function NetW(): Leg -> int { (l: Leg) => CreditOf(l) - DebitOf(l) }

  function NegativeNetW(): Leg -> int { (l: Leg) => if l.amount < 0 then CreditOf(l) - DebitOf(l) else 0 }

  datatype PostError = InvariantViolation | UnbalancedAtCommit

  /** Post one group and commit: the service's own check, the insert loop, then the trigger. */
  function PostGroup(ledger: seq<Entry>, currency: string, legs: seq<Leg>): Result<seq<Entry>, PostError> {
    if Sum(legs, DebitW()) != Sum(legs, CreditW()) || |legs| < 2 then Failure(InvariantViolation)
    else
      var ledger' := ledger + Rows(NewGroup(ledger), currency, Positive(legs));
      if GroupBalanced(ledger', NewGroup(ledger)) then Success(ledger') else Failure(UnbalancedAtCommit)
  }

  lemma {:induction false} NetIsCreditsMinusDebits(legs: seq<Leg>)
    ensures Sum(legs, NetW()) == Sum(legs, CreditW()) - Sum(legs, DebitW())
    decreases |legs|
  {
    if |legs| > 0 {
      NetIsCreditsMinusDebits(legs[..|legs| - 1]);
    }
  }

  /** Skipping legs loses exactly the negative ones. */
  lemma {:induction false} PositiveNet(legs: seq<Leg>)
    ensures Sum(Positive(legs), NetW()) == Sum(legs, NetW()) - Sum(legs, NegativeNetW())
    decreases |legs|
  {
    if |legs| > 0 {
      var init, last := legs[..|legs| - 1], legs[|legs| - 1];
      PositiveNet(init);
      if last.amount > 0 {
        SumAppend(Positive(init), last, NetW());
      } else {
        assert Positive(init) + [] == Positive(init);
      }
    }
  }

  lemma {:induction false} RowsSum(group: nat, currency: string, legs: seq<Leg>, f: Entry -> int, g: Leg -> int)
    requires forall l: Leg :: f(Entry(group, currency, l)) == g(l)
    ensures Sum(Rows(group, currency, legs), f) == Sum(legs, g)
    decreases |legs|
  {
    if |legs| > 0 {
      var init := legs[..|legs| - 1];
      assert Rows(group, currency, legs)[..|legs| - 1] == Rows(group, currency, init);
      RowsSum(group, currency, init, f, g);
    }
  }

  /** The signed sum of the new group is the net of the positive legs alone. */
  lemma NewGroupSum(ledger: seq<Entry>, currency: string, legs: seq<Leg>)
    requires GroupsAreOld(ledger)
    ensures
      Sum(ledger + Rows(NewGroup(ledger), currency, legs), GroupSigned(NewGroup(ledger))) == Sum(legs, NetW())
  {
    var g := NewGroup(ledger);
    SumConcat(ledger, Rows(g, currency, legs), GroupSigned(g));
    SumZero(ledger, GroupSigned(g));
    RowsSum(g, currency, legs, GroupSigned(g), NetW());
  }

  /**
   * When does a posting commit? The legs must balance and be at least two, and the
   * negative legs, which the insert loop skips, must balance among themselves.
   */
  lemma PostCommitsIff(ledger: seq<Entry>, currency: string, legs: seq<Leg>)
    requires GroupsAreOld(ledger)
    ensures PostGroup(ledger, currency, legs).Success? <==>
      && |legs| >= 2
      && Sum(legs, DebitW()) == Sum(legs, CreditW())
      && Sum(legs, NegativeNetW()) == 0
  {
    NewGroupSum(ledger, currency, Positive(legs));
    PositiveNet(legs);
    NetIsCreditsMinusDebits(legs);
  }

  /** With non-negative legs the service's own check is already the whole truth. */
  lemma NonNegativeLegsCommitIff(ledger: seq<Entry>, currency: string, legs: seq<Leg>)
    requires GroupsAreOld(ledger)
    requires forall i :: 0 <= i < |legs| ==> legs[i].amount >= 0
    ensures PostGroup(ledger, currency, legs).Success? <==>
      |legs| >= 2 && Sum(legs, DebitW()) == Sum(legs, CreditW())
  {
    SumZero(legs, NegativeNetW());
    PostCommitsIff(ledger, currency, legs);
  }

  /** Without that, a group can pass the service's check and still fail at COMMIT. */
  lemma NegativeLegSlipsThrough(ledger: seq<Entry>, currency: string, a: Account)
    requires GroupsAreOld(ledger)
    ensures
      var l := Leg(a, Debit, 10, None, None, None);
      PostGroup(ledger, currency, [l, l.(direction := Credit, amount := 15), l.(direction := Credit, amount := -5), l.(amount := 0)])
      == Failure(UnbalancedAtCommit)
  {
    var l := Leg(a, Debit, 10, None, None, None);
    var l2, l3, l4 := l.(direction := Credit, amount := 15), l.(direction := Credit, amount := -5), l.(amount := 0);
    SumFour(l, l2, l3, l4, DebitW());
    SumFour(l, l2, l3, l4, CreditW());
    SumFour(l, l2, l3, l4, NegativeNetW());
    PostCommitsIff(ledger, currency, [l, l2, l3, l4]);
  }

  /** The ledger only ever grows, by rows of one new group. */
  lemma PostAppends(ledger: seq<Entry>, currency: string, legs: seq<Leg>)
    requires GroupsAreOld(ledger) && PostGroup(ledger, currency, legs).Success?
    ensures ledger <= PostGroup(ledger, currency, legs).value
    ensures GroupsAreOld(PostGroup(ledger, currency, legs).value)
  {
    NewGroupSum(ledger, currency, Positive(legs));
    if |Positive(legs)| == 0 {
      assert ledger + Rows(NewGroup(ledger), currency, []) == ledger;
    }
  }

  // ---- measures ----

  /** Whose money a balance is about: all of one currency, or one booking. */
  datatype Scope = InCurrency(currency: string) | OfBooking(bookingId: nat)

  /**
   * What an auditor can read off the entries: the credit-minus-debit balance of an
   * account, the trial balance of a currency, and how often each kind of posting
   * was made for one payment, payout or booking.
   */
  datatype Probe =
    | Balance(account: Account, scope: Scope)
    | Trial(currency: string)
    | CapturePosts(paymentId: nat)
    | RefundCredits(paymentId: nat)
    | SplitPosts(payoutId: nat)
    | SettlePosts(payoutId: nat)

  predicate EntryInScope(currency: string, l: Leg, scope: Scope) {
    match scope
    case InCurrency(c) => currency == c
    case OfBooking(b) => l.bookingId == Some(b)
  }

  function Weight(probe: Probe, currency: string, l: Leg): int {
    match probe
    case Balance(a, scope) =>
      if l.account == a && EntryInScope(currency, l, scope) then CreditOf(l) - DebitOf(l) else 0
    case Trial(c) =>
      if currency == c then CreditOf(l) - DebitOf(l) else 0
    case CapturePosts(p) =>
      if l.account == ProviderClearing && l.direction == Debit && l.paymentId == Some(p) then 1 else 0
    case RefundCredits(p) =>
      if l.account == GuestRefundClearing && l.direction == Credit && l.paymentId == Some(p) then l.amount else 0
    case SplitPosts(q) =>
      if l.account == HostPayable && l.direction == Credit && l.payoutId == Some(q) then 1 else 0
    case SettlePosts(q) =>
      if l.account == HostPayable && l.direction == Debit && l.payoutId == Some(q) then 1 else 0
  }

  function EntryWeight(probe: Probe): Entry -> int {
    (e: Entry) => Weight(probe, e.currency, e.leg)
  }

  /** A leg counts only when the insert loop writes it. */
  function LegWeight(probe: Probe, currency: string): Leg -> int {
    (l: Leg) => if l.amount <= 0 then 0 else Weight(probe, currency, l)
  }

  function Measure(ledger: seq<Entry>, probe: Probe): int {
    Sum(ledger, EntryWeight(probe))
  }

  lemma {:induction false} PositiveWeight(legs: seq<Leg>, probe: Probe, currency: string)
    ensures Sum(Positive(legs), LegWeight(probe, currency)) == Sum(legs, LegWeight(probe, currency))
    decreases |legs|
  {
    if |legs| > 0 {
      var init, last := legs[..|legs| - 1], legs[|legs| - 1];
      PositiveWeight(init, probe, currency);
      if last.amount > 0 {
        SumAppend(Positive(init), last, LegWeight(probe, currency));
      } else {
        assert Positive(init) + [] == Positive(init);
      }
    }
  }

  lemma {:induction false} PostedRowsWeight(group: nat, legs: seq<Leg>, probe: Probe, currency: string)
    requires forall i :: 0 <= i < |legs| ==> legs[i].amount > 0
    ensures Measure(Rows(group, currency, legs), probe) == Sum(legs, LegWeight(probe, currency))
    decreases |legs|
  {
    if |legs| > 0 {
      var init := legs[..|legs| - 1];
      assert Rows(group, currency, legs)[..|legs| - 1] == Rows(group, currency, init);
      PostedRowsWeight(group, init, probe, currency);
    }
  }

  /** What a posting adds to any measure: the weights of its positive legs. */
  lemma PostMeasure(ledger: seq<Entry>, currency: string, legs: seq<Leg>, probe: Probe)
    requires PostGroup(ledger, currency, legs).Success?
    ensures Measure(PostGroup(ledger, currency, legs).value, probe)
            == Measure(ledger, probe) + Sum(legs, LegWeight(probe, currency))
  {
    var rows := Rows(NewGroup(ledger), currency, Positive(legs));
    SumConcat(ledger, rows, EntryWeight(probe));
    PostedRowsWeight(NewGroup(ledger), Positive(legs), probe, currency);
    PositiveWeight(legs, probe, currency);
  }
}
