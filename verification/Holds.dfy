/**
 * What every run of the hold machine keeps: no double booking and exact deal counters
 * whatever the lock does, and a complete pre-check while no section outlives its lock.
 */
module Holds {
  import opened Common
  import opened BookingFsm
  import opened Bookings
  import opened HoldProtocol
  import RedisLock

  // ---- no double booking, whatever the lock does ----

  lemma StepKeepsOccupancy(fsm: set<Edge>, s: State, step: Step)
    requires NoDoubleBooking(s.bookings) && RangesOk(s.bookings) && Next(fsm, s, step).Some?
    ensures NoDoubleBooking(Next(fsm, s, step).value.bookings) && RangesOk(Next(fsm, s, step).value.bookings)
  {
    if step.Commit? {
      var row := s.requests[step.w].row;
      if InsertHold(s.bookings, s.blocks, row, s.now).Wrote? {
        InsertHoldKeeps(s.bookings, s.blocks, fsm, row, s.now);
      }
    } else if step.Move? {
      StatusKeepsOccupancy(s.bookings, s.blocks, fsm, step.b, step.to, s.now);
    }
  }

  // ---- the deal counter ----

  function OfDeal(d: nat): Booking -> int {
    (b: Booking) => if b.deal == Some(d) then 1 else 0
  }

  /** How many bookings, in any status, carry a deal's id. */
  function BookedOn(bookings: seq<Booking>, d: nat): int {
    Sum(bookings, OfDeal(d))
  }

  predicate DealOk(bookings: seq<Booking>, deals: seq<Deal>, d: nat)
    requires d < |deals|
  {
    && deals[d].claimed == BookedOn(bookings, d)
    && 0 <= deals[d].claimed <= deals[d].total
    && (deals[d].status == SoldOut <==> deals[d].claimed == deals[d].total)
    && deals[d].status != DealStatus.Cancelled
    && deals[d].startsAt < deals[d].endsAt <= deals[d].startsAt + 259_200_000 && 500 <= deals[d].discountPct <= 9_000
  }

  ghost predicate DealsOk(bookings: seq<Booking>, deals: seq<Deal>) {
    && (forall d :: 0 <= d < |deals| ==> DealOk(bookings, deals, d))
    && (forall b :: 0 <= b < |bookings| && bookings[b].deal.Some? ==> bookings[b].deal.value < |deals|)
  }

  /** A request that has claimed holds the row lock, and the row is still claimable under it. */
  ghost predicate ClaimsHold(s: State) {
    forall w: nat :: At(s, w, DealClaimed) ==>
      var deal := s.requests[w].row.deal;
      && deal.Some? && deal.value in s.rowLocks && s.rowLocks[deal.value] == w
      && deal.value < |s.deals| && Claimable(s.deals[deal.value])
  }

  lemma CommitKeepsDeals(s: State, w: nat)
    requires DealsOk(s.bookings, s.deals) && ClaimsHold(s) && NextCommit(s, w).Some?
    ensures
      var s' := NextCommit(s, w).value;
      DealsOk(s'.bookings, s'.deals) && ClaimsHold(s')
  {
    var row, s' := s.requests[w].row, NextCommit(s, w).value;
    if InsertHold(s.bookings, s.blocks, row, s.now).Wrote? {
      forall d | 0 <= d < |s'.deals| ensures DealOk(s'.bookings, s'.deals, d) {
        assert DealOk(s.bookings, s.deals, d);
        SumAppend(s.bookings, FreshHold(row, s.now), OfDeal(d));
      }
    }
    forall v: nat | At(s', v, DealClaimed)
      ensures
        var deal := s'.requests[v].row.deal;
        && deal.Some? && deal.value in s'.rowLocks && s'.rowLocks[deal.value] == v
        && deal.value < |s'.deals| && Claimable(s'.deals[deal.value])
    {
      assert At(s, v, DealClaimed) && v != w;
    }
  }

  lemma RequestKeepsDeals(s: State, step: Step)
    requires step.Arrive? || step.Acquire? || step.GiveUp? || step.Check? || step.ClaimDeal? || step.Release? || step.Crash?
    requires DealsOk(s.bookings, s.deals) && ClaimsHold(s) && NextRequest(s, step).Some?
    ensures
      var s' := NextRequest(s, step).value;
      s'.bookings == s.bookings && s'.deals == s.deals && ClaimsHold(s')
  {
    var s' := NextRequest(s, step).value;
    forall v: nat | At(s', v, DealClaimed)
      ensures
        var deal := s'.requests[v].row.deal;
        && deal.Some? && deal.value in s'.rowLocks && s'.rowLocks[deal.value] == v
        && deal.value < |s'.deals| && Claimable(s'.deals[deal.value])
    {
      if !(step.ClaimDeal? && v == step.w) {
        assert At(s, v, DealClaimed);
      }
    }
  }

  lemma WorldKeepsDeals(fsm: set<Edge>, s: State, step: Step)
    requires step.Tick? || step.Move? || step.SetBlocks? || step.CreateDeal? || step.ActivateDue? || step.EndExpired?
    requires DealsOk(s.bookings, s.deals) && ClaimsHold(s) && NextWorld(fsm, s, step).Some?
    ensures
      var s' := NextWorld(fsm, s, step).value;
      DealsOk(s'.bookings, s'.deals) && ClaimsHold(s')
  {
    var s' := NextWorld(fsm, s, step).value;
    assert s'.requests == s.requests && s'.rowLocks == s.rowLocks;
    forall w: nat | At(s', w, DealClaimed)
      ensures s'.requests[w].row.deal.value < |s'.deals| && Claimable(s'.deals[s'.requests[w].row.deal.value])
    {
      assert At(s, w, DealClaimed);
    }
    forall d | 0 <= d < |s'.deals| ensures DealOk(s'.bookings, s'.deals, d) {
      if d < |s.deals| {
        assert DealOk(s.bookings, s.deals, d);
        if step.Move? {
          SumUpdate(s.bookings, step.b, s'.bookings[step.b], OfDeal(d));
          assert s'.bookings == s.bookings[step.b := s'.bookings[step.b]];
        }
      } else {
        SumZero(s.bookings, OfDeal(d));
      }
    }
  }

  /** Open deals of one unit never compete for an instant. */
  ghost predicate DealsApart(deals: seq<Deal>) {
    forall d, e :: 0 <= d < e < |deals| ==> !Clash(deals[d], deals[e])
  }

  lemma StepKeepsApart(fsm: set<Edge>, s: State, step: Step)
    requires DealsApart(s.deals) && Next(fsm, s, step).Some?
    ensures DealsApart(Next(fsm, s, step).value.deals)
  {
  }

  ghost predicate SafeState(s: State) {
    && NoDoubleBooking(s.bookings) && RangesOk(s.bookings) && DealsApart(s.deals)
    && DealsOk(s.bookings, s.deals) && ClaimsHold(s)
  }

  lemma StepKeepsSafe(fsm: set<Edge>, s: State, step: Step)
    requires SafeState(s) && Next(fsm, s, step).Some?
    ensures SafeState(Next(fsm, s, step).value)
  {
    hide NoDoubleBooking, RangesOk, DealsOk, ClaimsHold, DealsApart, NextCommit, NextWorld, NextRequest;
    StepKeepsApart(fsm, s, step);
    StepKeepsOccupancy(fsm, s, step);
    if step.Commit? {
      CommitKeepsDeals(s, step.w);
    } else if step.Tick? || step.Move? || step.SetBlocks? || step.CreateDeal? || step.ActivateDue? || step.EndExpired? {
      WorldKeepsDeals(fsm, s, step);
    } else {
      RequestKeepsDeals(s, step);
    }
  }

  lemma {:induction false} RunIsSafe(fsm: set<Edge>, trace: seq<State>, i: nat)
    requires Run(fsm, trace) && i < |trace|
    ensures SafeState(trace[i])
    decreases i
  {
    if i > 0 {
      RunIsSafe(fsm, trace, i - 1);
      assert Follows(fsm, trace[i - 1], trace[i]);
      var step :| Next(fsm, trace[i - 1], step) == Some(trace[i]);
      StepKeepsSafe(fsm, trace[i - 1], step);
    }
  }

  /**
   * In every run, lapsed locks and vanished requests included: no two bookings that
   * hold inventory share an instant of a unit, buffers included. One of them checks in
   * no earlier than the other's check-out and minutes of turnaround.
   */
  lemma HoldsNeverOverlap(fsm: set<Edge>, trace: seq<State>, i: nat, a: nat, b: nat)
    requires Run(fsm, trace) && i < |trace|
    requires a < |trace[i].bookings| && b < |trace[i].bookings| && a != b
    requires trace[i].bookings[a].unit == trace[i].bookings[b].unit
    requires trace[i].bookings[a].status in {PendingPayment, Confirmed, CheckedIn}
    requires trace[i].bookings[b].status in {PendingPayment, Confirmed, CheckedIn}
    ensures
      var x, y := trace[i].bookings[a], trace[i].bookings[b];
      && !Overlaps(x.checkIn, BlockEnd(x.checkOut, x.turnaroundMinutes), y.checkIn, BlockEnd(y.checkOut, y.turnaroundMinutes))
      && (x.checkOut + 60_000 * x.turnaroundMinutes <= y.checkIn || y.checkOut + 60_000 * y.turnaroundMinutes <= x.checkIn)
  {
    RunIsSafe(fsm, trace, i);
    StaysApart(trace[i].bookings, a, b);
  }

  /**
   * In every run a deal's counter is the number of bookings, in any status, that
   * carry its id; it never exceeds the stock, and the deal reads SOLD_OUT exactly
   * when the stock is used up. So a rolled-back hold consumes no slot.
   */
  lemma CounterCountsBookings(fsm: set<Edge>, trace: seq<State>, i: nat, d: nat)
    requires Run(fsm, trace) && i < |trace| && d < |trace[i].deals|
    ensures
      var deal := trace[i].deals[d];
      && 0 <= deal.claimed == BookedOn(trace[i].bookings, d) <= deal.total
      && (deal.status == SoldOut <==> BookedOn(trace[i].bookings, d) == deal.total)
  {
    RunIsSafe(fsm, trace, i);
    assert DealOk(trace[i].bookings, trace[i].deals, d);
  }

  /** In every run, two open deals of one unit have claim windows without a common instant. */
  lemma OpenDealsNeverClash(fsm: set<Edge>, trace: seq<State>, i: nat, d: nat, e: nat)
    requires Run(fsm, trace) && i < |trace| && d < |trace[i].deals| && e < |trace[i].deals| && d != e
    requires trace[i].deals[d].status in {Scheduled, Active} && trace[i].deals[e].status in {Scheduled, Active}
    requires trace[i].deals[d].unit == trace[i].deals[e].unit
    ensures !Overlaps(trace[i].deals[d].startsAt, trace[i].deals[d].endsAt, trace[i].deals[e].startsAt, trace[i].deals[e].endsAt)
    ensures trace[i].deals[d].endsAt <= trace[i].deals[e].startsAt || trace[i].deals[e].endsAt <= trace[i].deals[d].startsAt
  {
    RunIsSafe(fsm, trace, i);
    assert DealOk(trace[i].bookings, trace[i].deals, d) && DealOk(trace[i].bookings, trace[i].deals, e);
    assert !Clash(trace[i].deals[if d < e then d else e], trace[i].deals[if d < e then e else d]);
  }

  ghost predicate DealsGrow(deals: seq<Deal>, deals': seq<Deal>) {
    && |deals| <= |deals'|
    && forall d :: 0 <= d < |deals| ==>
         && deals[d].claimed <= deals'[d].claimed
         && (deals[d].status in {SoldOut, Ended} ==> deals'[d] == deals[d])
  }

  lemma StepGrowsDeals(fsm: set<Edge>, s: State, step: Step)
    requires ClaimsHold(s) && Next(fsm, s, step).Some?
    ensures DealsGrow(s.deals, Next(fsm, s, step).value.deals)
  {
    if step.Commit? && At(s, step.w, DealClaimed) {
      assert Claimable(s.deals[s.requests[step.w].row.deal.value]);
    }
  }

  lemma DealsStay(deals: seq<Deal>)
    ensures DealsGrow(deals, deals)
  {
  }

  lemma DealsGrowOn(deals: seq<Deal>, deals': seq<Deal>, deals'': seq<Deal>)
    requires DealsGrow(deals, deals') && DealsGrow(deals', deals'')
    ensures DealsGrow(deals, deals'')
  {
  }

  lemma RunStepGrowsDeals(fsm: set<Edge>, trace: seq<State>, i: nat)
    requires Run(fsm, trace) && i + 1 < |trace|
    ensures DealsGrow(trace[i].deals, trace[i + 1].deals)
  {
    hide Next, DealsGrow;
    RunIsSafe(fsm, trace, i);
    assert Follows(fsm, trace[i], trace[i + 1]);
    var step :| Next(fsm, trace[i], step) == Some(trace[i + 1]);
    StepGrowsDeals(fsm, trace[i], step);
  }

  lemma {:induction false} RunGrowsDeals(fsm: set<Edge>, trace: seq<State>, i: nat, j: nat)
    requires Run(fsm, trace) && i <= j < |trace|
    ensures DealsGrow(trace[i].deals, trace[j].deals)
    decreases j
  {
    hide Run, DealsGrow;
    if i < j {
      RunGrowsDeals(fsm, trace, i, j - 1);
      RunStepGrowsDeals(fsm, trace, j - 1);
      DealsGrowOn(trace[i].deals, trace[j - 1].deals, trace[j].deals);
    } else {
      DealsStay(trace[i].deals);
    }
  }

  /** Once a deal is sold out or ended, no further booking ever carries its id. */
  lemma NoClaimAfterClosing(fsm: set<Edge>, trace: seq<State>, i: nat, j: nat, d: nat)
    requires Run(fsm, trace) && i <= j < |trace| && d < |trace[i].deals|
    requires trace[i].deals[d].status in {SoldOut, Ended}
    ensures d < |trace[j].deals| && trace[j].deals[d] == trace[i].deals[d]
    ensures BookedOn(trace[j].bookings, d) == BookedOn(trace[i].bookings, d)
  {
    RunGrowsDeals(fsm, trace, i, j);
    CounterCountsBookings(fsm, trace, i, d);
    CounterCountsBookings(fsm, trace, j, d);
  }

  // ---- when no section outlives its lock ----

  ghost predicate NoDrafts(bookings: seq<Booking>) {
    forall i :: 0 <= i < |bookings| ==> bookings[i].status != Draft
  }

  /** Every request inside its critical section got the lock less than one TTL ago. */
  ghost predicate InTime(s: State) {
    forall w: nat :: InLock(s, w) ==> s.now < s.requests[w].acquiredAt + UNIT_LOCK_TTL_MS
  }

  /** A request still within its TTL owns its unit's lock. */
  ghost predicate InTimeOwns(s: State) {
    forall w: nat :: InLock(s, w) && s.now < s.requests[w].acquiredAt + UNIT_LOCK_TTL_MS ==>
      var unit := s.requests[w].row.unit;
      unit in s.store.held && s.store.held[unit] == RedisLock.Held(w, s.requests[w].acquiredAt + UNIT_LOCK_TTL_MS)
  }

  lemma StepKeepsOwners(fsm: set<Edge>, s: State, step: Step)
    requires InTimeOwns(s) && Next(fsm, s, step).Some?
    ensures InTimeOwns(Next(fsm, s, step).value)
  {
    var s' := Next(fsm, s, step).value;
    forall w: nat | InLock(s', w) && s'.now < s'.requests[w].acquiredAt + UNIT_LOCK_TTL_MS
      ensures
        var unit := s'.requests[w].row.unit;
        unit in s'.store.held && s'.store.held[unit] == RedisLock.Held(w, s'.requests[w].acquiredAt + UNIT_LOCK_TTL_MS)
    {
      if !(step.Acquire? && w == step.w) {
        assert InLock(s, w);
      }
    }
  }

  /** What a passed check found is still so: no booking holds the range it is about to take. */
  ghost predicate CheckStands(s: State) {
    forall w: nat :: At(s, w, Checked) || At(s, w, DealClaimed) ==>
      var row := s.requests[w].row;
      !BookedDuring(s.bookings, row.unit, row.checkIn, BlockEnd(row.checkOut, row.turnaroundMinutes))
  }

  lemma CommitKeepsChecks(s: State, w: nat)
    requires InTime(s) && InTimeOwns(s) && CheckStands(s) && NextCommit(s, w).Some?
    ensures CheckStands(NextCommit(s, w).value)
  {
    var s' := NextCommit(s, w).value;
    forall v: nat | At(s', v, Checked) || At(s', v, DealClaimed)
      ensures
        var row := s'.requests[v].row;
        !BookedDuring(s'.bookings, row.unit, row.checkIn, BlockEnd(row.checkOut, row.turnaroundMinutes))
    {
      assert v != w && InLock(s, v) && InLock(s, w);
      assert s.requests[v].row.unit != s.requests[w].row.unit;
    }
  }

  /** No status change makes a booking start to hold inventory again. */
  lemma MoveKeepsChecks(fsm: set<Edge>, s: State, b: nat, to: Status)
    requires BlockingIsNotReentered(fsm) && NoDrafts(s.bookings)
    requires CheckStands(s) && NextWorld(fsm, s, Move(b, to)).Some?
    ensures CheckStands(NextWorld(fsm, s, Move(b, to)).value)
  {
    var s' := NextWorld(fsm, s, Move(b, to)).value;
    assert s.bookings[b].status != to ==> (s.bookings[b].status, to) in fsm;
    assert Blocking(s'.bookings[b].status) ==> Blocking(s.bookings[b].status);
    forall v: nat | At(s', v, Checked) || At(s', v, DealClaimed)
      ensures
        var row := s'.requests[v].row;
        !BookedDuring(s'.bookings, row.unit, row.checkIn, BlockEnd(row.checkOut, row.turnaroundMinutes))
    {
      assert At(s, v, Checked) || At(s, v, DealClaimed);
      var row := s.requests[v].row;
      var lo, hi := row.checkIn, BlockEnd(row.checkOut, row.turnaroundMinutes);
      forall k | 0 <= k < |s'.bookings| ensures !RowBlocks(s'.bookings[k], row.unit, lo, hi) {
        assert !RowBlocks(s.bookings[k], row.unit, lo, hi);
      }
    }
  }

  lemma StepKeepsChecks(fsm: set<Edge>, s: State, step: Step)
    requires BlockingIsNotReentered(fsm) && NoDrafts(s.bookings) && Next(fsm, s, step).Some?
    requires InTime(s) && InTimeOwns(s) && CheckStands(s)
    ensures CheckStands(Next(fsm, s, step).value)
  {
    if step.Commit? {
      CommitKeepsChecks(s, step.w);
    } else if step.Move? {
      MoveKeepsChecks(fsm, s, step.b, step.to);
    } else {
      var s' := Next(fsm, s, step).value;
      assert s'.bookings == s.bookings;
      forall v: nat | At(s', v, Checked) || At(s', v, DealClaimed)
        ensures
          var row := s'.requests[v].row;
          !BookedDuring(s'.bookings, row.unit, row.checkIn, BlockEnd(row.checkOut, row.turnaroundMinutes))
      {
        if !(step.Check? && v == step.w) {
          assert At(s, v, Checked) || At(s, v, DealClaimed);
        }
      }
    }
  }

  lemma {:induction false} RunKeepsOwners(fsm: set<Edge>, trace: seq<State>, i: nat)
    requires Run(fsm, trace) && i < |trace|
    ensures InTimeOwns(trace[i])
    decreases i
  {
    if i > 0 {
      RunKeepsOwners(fsm, trace, i - 1);
      assert Follows(fsm, trace[i - 1], trace[i]);
      var step :| Next(fsm, trace[i - 1], step) == Some(trace[i]);
      StepKeepsOwners(fsm, trace[i - 1], step);
    }
  }

  lemma StepAddsNoDraft(fsm: set<Edge>, s: State, step: Step)
    requires DraftIsEntry(fsm) && NoDrafts(s.bookings) && Next(fsm, s, step).Some?
    ensures NoDrafts(Next(fsm, s, step).value.bookings)
  {
    if step.Move? && s.bookings[step.b].status != step.to {
      assert (s.bookings[step.b].status, step.to) in fsm;
      assert (s.bookings[step.b].status, step.to).1 == step.to;
    }
  }

  lemma {:induction false} PromptRunKeepsChecks(fsm: set<Edge>, trace: seq<State>, i: nat)
    requires DraftIsEntry(fsm) && BlockingIsNotReentered(fsm) && Run(fsm, trace) && i < |trace|
    requires forall k :: 0 <= k < i ==> InTime(trace[k])
    ensures NoDrafts(trace[i].bookings) && CheckStands(trace[i])
    decreases i
  {
    if i > 0 {
      PromptRunKeepsChecks(fsm, trace, i - 1);
      RunKeepsOwners(fsm, trace, i - 1);
      assert Follows(fsm, trace[i - 1], trace[i]);
      var step :| Next(fsm, trace[i - 1], step) == Some(trace[i]);
      StepAddsNoDraft(fsm, trace[i - 1], step);
      StepKeepsChecks(fsm, trace[i - 1], step);
    }
  }

  /**
   * While no section outlives its lock, the pre-check is complete: the insert never
   * meets the exclusion constraint. What is left to refuse it are the row's own
   * checks and a host block set since the check.
   */
  lemma PreCheckIsComplete(fsm: set<Edge>, trace: seq<State>, i: nat, w: nat)
    requires DraftIsEntry(fsm) && BlockingIsNotReentered(fsm) && Run(fsm, trace) && i < |trace|
    requires forall k :: 0 <= k < i ==> InTime(trace[k])
    requires ReadyToInsert(trace[i], w)
    ensures
      var s, row := trace[i], trace[i].requests[w].row;
      var hi := BlockEnd(row.checkOut, row.turnaroundMinutes);
      && !BookedDuring(s.bookings, row.unit, row.checkIn, hi)
      && (InsertHold(s.bookings, s.blocks, row, s.now).Wrote?
          <==> InsertChecks(row) && !HostBlocked(s.blocks, row.unit, row.checkIn, hi))
  {
    PromptRunKeepsChecks(fsm, trace, i);
  }

  /** A request that gets its unit's lock owns it for five seconds, and at no later instant unless it gets it again. */
  lemma LockHoldsFiveSeconds(s: State, w: nat, t: int)
    requires NextRequest(s, Acquire(w)).Some?
    ensures
      var s', unit := NextRequest(s, Acquire(w)).value, s.requests[w].row.unit;
      && (unit !in s.store.held || s.store.held[unit].expiresAt <= s.now)
      && RedisLock.Owner(s'.store, unit, t) == if t < s.now + 5_000 then Some(w) else None
  {
    RedisLock.CommandsByInstant(s.store, s.requests[w].row.unit, w, 5_000, s.now, s.requests[w].row.unit, t);
  }

  /** In a state of any run in which no section has outlived its lock, at most one request is inside a unit's. */
  lemma OneRequestPerUnit(fsm: set<Edge>, trace: seq<State>, i: nat, v: nat, w: nat)
    requires Run(fsm, trace) && i < |trace| && InTime(trace[i])
    requires InLock(trace[i], v) && InLock(trace[i], w)
    requires trace[i].requests[v].row.unit == trace[i].requests[w].row.unit
    ensures v == w
  {
    RunKeepsOwners(fsm, trace, i);
  }

  lemma StartRun(fsm: set<Edge>, now: int) returns (trace: seq<State>)
    ensures Run(fsm, trace) && |trace| > 0 && trace[|trace| - 1] == Init(now)
  {
    trace := [Init(now)];
  }

  lemma Extend(fsm: set<Edge>, trace: seq<State>, step: Step) returns (trace': seq<State>)
    requires Run(fsm, trace) && |trace| > 0 && Next(fsm, trace[|trace| - 1], step).Some?
    ensures Run(fsm, trace') && |trace'| > 0 && Some(trace'[|trace'| - 1]) == Next(fsm, trace[|trace| - 1], step)
  {
    hide Next;
    trace' := trace + [Next(fsm, trace[|trace| - 1], step).value];
    assert Follows(fsm, trace[|trace| - 1], trace'[|trace|]);
  }

  /** One request checks and stalls past its TTL; a second acquires the lapsed lock and checks too. */
  lemma BothPassTheCheck(fsm: set<Edge>, row: Booking, now: int) returns (trace: seq<State>)
    requires InsertChecks(row)
    ensures Run(fsm, trace)
    ensures
      var s := trace[|trace| - 1];
      && s.bookings == [] && s.blocks == [] && s.deals == []
      && s.requests == [Request(row, Checked, now), Request(row, Checked, now + UNIT_LOCK_TTL_MS)]
  {
    hide Run;
    trace := StartRun(fsm, now);
    trace := Extend(fsm, trace, Arrive(row));
    trace := Extend(fsm, trace, Arrive(row));
    trace := Extend(fsm, trace, Acquire(0));
    trace := Extend(fsm, trace, Check(0));
    trace := Extend(fsm, trace, Tick(UNIT_LOCK_TTL_MS));
    trace := Extend(fsm, trace, Acquire(1));
    trace := Extend(fsm, trace, Check(1));
  }

  /**
   * With a lapse the constraint is what stands: for every row that could be inserted,
   * a run in which two requests both pass the check, the first one's insert commits
   * and the exclusion constraint then refuses the second.
   */
  lemma LapseMeetsConstraint(fsm: set<Edge>, row: Booking, now: int) returns (trace: seq<State>)
    requires InsertChecks(row) && row.deal.None?
    ensures Run(fsm, trace)
    ensures
      var s := trace[|trace| - 1];
      var hi := BlockEnd(row.checkOut, row.turnaroundMinutes);
      && |s.requests| == 2 && s.requests[0].phase == Leaving(Placed(0))
      && s.requests[1].row == row && ReadyToInsert(s, 1)
      && !HostBlocked(s.blocks, row.unit, row.checkIn, hi)
      && InsertHold(s.bookings, s.blocks, row, s.now).Rejected?
  {
    var before := BothPassTheCheck(fsm, row, now);
    var s := before[|before| - 1];
    trace := Extend(fsm, before, Commit(0));
    var s' := trace[|trace| - 1];
    assert s'.bookings == [FreshHold(row, s.now)];
    assert RowBlocks(s'.bookings[0], row.unit, row.checkIn, BlockEnd(row.checkOut, row.turnaroundMinutes));
  }
}
