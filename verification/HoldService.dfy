/**
 * createHold as it runs: the unit lock around one transaction that checks, claims
 * and inserts, and the deal life-cycle sweeps. Each method reports the steps it took
 * of the hold machine, so a call is a stretch of one of its runs.
 */
module HoldServices {
  import opened Common
  import opened BookingFsm
  import opened Bookings
  import opened HoldProtocol
  import HoldTheorems = Holds
  import RedisLock

  datatype HoldError = ValidationFailed | UnitNotBookable | LockNotAcquired | UnitUnavailable | FlashDealSoldOut | StatementFailed

  datatype DealError = DealInvalid | DealRejected

  /** createHold's own checks; `maxGuests` is what the unit lookup found, None if the unit cannot be booked. */
  predicate Admissible(row: Booking, guests: int, maxGuests: Option<nat>, appNow: int) {
    && row.checkOut > row.checkIn >= appNow
    && maxGuests.Some? && 1 <= guests <= maxGuests.value
  }

  function Total(waits: seq<nat>): nat {
    if waits == [] then 0 else Total(waits[..|waits| - 1]) + waits[|waits| - 1]
  }

  lemma TotalOfPrefix(waits: seq<nat>, k: nat)
    requires k <= |waits|
    ensures Total(waits[..k]) <= Total(waits)
    decreases |waits|
  {
    if k < |waits| {
      assert waits[..|waits| - 1][..k] == waits[..k];
      TotalOfPrefix(waits[..|waits| - 1], k);
    } else {
      assert waits[..k] == waits;
    }
  }

  /** A scheduled deal whose claim window is open. */
  predicate DueAt(deal: Deal, now: int) {
    deal.status == Scheduled && deal.startsAt <= now < deal.endsAt
  }

  /** An open deal whose claim window is over. */
  predicate OverAt(deal: Deal, now: int) {
    (deal.status == Scheduled || deal.status == Active) && deal.endsAt <= now
  }

  /** No key but this one has changed in Redis. */
  ghost predicate OtherKeysKept(before: RedisLock.Store, after: RedisLock.Store, unit: nat) {
    && after.fences == before.fences
    && forall key :: key != unit ==> (key in after.held <==> key in before.held) && (key in after.held ==> after.held[key] == before.held[key])
  }

  lemma SameKeys(store: RedisLock.Store, unit: nat)
    ensures OtherKeysKept(store, store, unit)
  {
  }

  /** The unit's lock is free at the k-th attempt and was not before, or the k-th was the last. */
  ghost predicate TriedUntil(before: RedisLock.Store, unit: nat, from: int, waits: seq<nat>, k: nat) {
    && k <= |waits|
    && (forall j :: 0 <= j < k ==> RedisLock.Owner(before, unit, from + Total(waits[..j])).Some?)
    && (k < |waits| ==> RedisLock.Owner(before, unit, from + Total(waits[..k])).None?)
  }

  class HoldService {
    const fsm: set<Edge>
    var bookings: seq<Booking>
    var blocks: seq<Block>
    var deals: seq<Deal>
    var store: RedisLock.Store
    var now: int
    /** Requests so far: the next one's token, which no other request has. */
    var arrivals: nat
    ghost var trace: seq<State>

    constructor (fsm: set<Edge>, now: int)
      ensures Valid() && Quiet() && this.fsm == fsm && trace == [Init(now)]
    {
      this.fsm, this.now := fsm, now;
      bookings, blocks, deals, store := [], [], [], RedisLock.Store(map[], map[]);
      arrivals, trace := 0, [Init(now)];
    }

    ghost function Last(): State
      requires |trace| > 0
      reads this
    {
      trace[|trace| - 1]
    }

    ghost predicate Holds(s: State)
      reads this
    {
      s.bookings == bookings && s.blocks == blocks && s.deals == deals && s.store == store && s.now == now && |s.requests| == arrivals
    }

    ghost predicate Valid()
      reads this
    {
      Run(fsm, trace) && |trace| > 0 && Holds(Last())
    }

    /** No transaction is open. */
    ghost predicate Quiet()
      reads this
    {
      |trace| > 0 && Last().rowLocks == map[]
    }

    ghost method Log(step: Step)
      requires Run(fsm, trace) && |trace| > 0
      requires Next(fsm, Last(), step).Some? && Holds(Next(fsm, Last(), step).value)
      modifies this`trace
      ensures Valid() && old(trace) <= trace && Next(fsm, old(Last()), step) == Some(Last())
    {
      hide Next;
      var s := Last();
      trace := trace + [Next(fsm, s, step).value];
      assert Follows(fsm, s, Last());
    }

    /** The range of the row is free of bookings and of active host blocks, turnarounds included. */
    ghost predicate RangeFree(row: Booking)
      reads this
    {
      Vacant(bookings, blocks, row.unit, row.checkIn, row.checkOut, row.turnaroundMinutes)
    }

    /** The deal of the row, if it has one, is active and not sold out. */
    ghost predicate DealOpen(row: Booking)
      reads this
    {
      row.deal.Some? ==>
        row.deal.value < |deals| && deals[row.deal.value].status == Active && deals[row.deal.value].claimed < deals[row.deal.value].total
    }

    /** Why the transaction of a request does not commit; None if it does. */
    ghost function Refusal(row: Booking): Option<HoldError>
      reads this
    {
      if !RangeFree(row) then Some(HoldError.UnitUnavailable)
      else if !DealOpen(row) then Some(FlashDealSoldOut)
      else if !InsertChecks(row) then Some(StatementFailed)
      else None
    }

    /** A hold, awaiting payment, and with it one slot of its deal, which is sold out with its last one. */
    ghost predicate HoldPlaced(before: seq<Booking>, dealsBefore: seq<Deal>, row: Booking)
      reads this
    {
      && bookings == before + [row.(status := PendingPayment, history := [Stamp(PendingPayment, now)])]
      && if row.deal.None? then deals == dealsBefore
         else
           && row.deal.value < |dealsBefore|
           && var deal := dealsBefore[row.deal.value];
              deals == dealsBefore[row.deal.value := deal.(
                claimed := deal.claimed + 1, status := if deal.claimed + 1 == deal.total then SoldOut else deal.status)]
    }

    /** The tables of a service are those of a safe state of the machine. */
    lemma RangesAreOk()
      requires Valid()
      ensures RangesOk(bookings)
    {
      HoldTheorems.RunIsSafe(fsm, trace, |trace| - 1);
    }

    /**
     * Place a hold while no other request runs; `waits` are the pauses between the
     * attempts at the lock. It succeeds exactly when the request is admissible, the
     * unit's lock is free by the last attempt, the range is free, the deal can be
     * claimed and the row passes its checks; it then takes one slot. A failure says
     * which of these was not so, and leaves bookings and deals as they were. Either way
     * no time passes beyond the attempts, and no lock stays behind.
     */
    method CreateHold(row: Booking, guests: int, maxGuests: Option<nat>, appNow: int, waits: seq<nat>)
      returns (r: Result<nat, HoldError>)
      requires Valid() && Quiet()
      modifies this`bookings, this`deals, this`store, this`now, this`arrivals, this`trace
      ensures Valid() && Quiet() && old(trace) <= trace && OtherKeysKept(old(store), store, row.unit)
      ensures r.Success? <==>
        && Admissible(row, guests, maxGuests, appNow)
        && RedisLock.Owner(old(store), row.unit, old(now) + Total(waits)).None?
        && old(Refusal(row)).None?
      ensures r.Success? ==> r.value == |old(bookings)| && HoldPlaced(old(bookings), old(deals), row)
      ensures r.Failure? ==> bookings == old(bookings) && deals == old(deals)
      ensures r == Failure(ValidationFailed) <==>
        || row.checkOut <= row.checkIn || row.checkIn < appNow
        || (maxGuests.Some? && (guests < 1 || guests > maxGuests.value))
      ensures r == Failure(UnitNotBookable) <==> row.checkOut > row.checkIn >= appNow && maxGuests.None?
      ensures r == Failure(LockNotAcquired) <==>
        Admissible(row, guests, maxGuests, appNow) && RedisLock.Owner(old(store), row.unit, old(now) + Total(waits)).Some?
      ensures
        Admissible(row, guests, maxGuests, appNow) && row.turnaroundMinutes >= 0 && r.Failure? && r.error != LockNotAcquired ==>
          old(Refusal(row)) == Some(r.error)
      ensures !Admissible(row, guests, maxGuests, appNow) ==> store == old(store) && now == old(now)
      ensures Admissible(row, guests, maxGuests, appNow) ==>
        exists k: nat :: TriedUntil(old(store), row.unit, old(now), waits, k) && now == old(now) + Total(waits[..k])
      ensures Admissible(row, guests, maxGuests, appNow) && r != Failure(LockNotAcquired) ==>
        RedisLock.Owner(store, row.unit, now).None?
      ensures r == Failure(LockNotAcquired) ==> store == old(store)
    {
      hide Run, Next;
      if row.checkOut <= row.checkIn || row.checkIn < appNow {
        return Failure(ValidationFailed);
      }
      if maxGuests.None? {
        return Failure(UnitNotBookable);
      }
      if guests < 1 || guests > maxGuests.value {
        return Failure(ValidationFailed);
      }
      var token := Enter(row, waits);
      if token.None? {
        return Failure(LockNotAcquired);
      }
      r := HoldTransaction(token.value, row);
      Leave(token.value, row.unit);
    }

    /** A new request tries for its unit's lock, pausing between attempts; its number is its token. */
    method Enter(row: Booking, waits: seq<nat>) returns (token: Option<nat>)
      requires Valid() && Quiet()
      modifies this`arrivals, this`store, this`now, this`trace
      ensures Valid() && Quiet() && old(trace) <= trace && OtherKeysKept(old(store), store, row.unit)
      ensures exists k: nat :: TriedUntil(old(store), row.unit, old(now), waits, k) && now == old(now) + Total(waits[..k])
      ensures token.Some? <==> RedisLock.Owner(old(store), row.unit, old(now) + Total(waits)).None?
      ensures token.None? ==> store == old(store)
      ensures token.Some? ==>
        && At(Last(), token.value, InSection) && Last().requests[token.value].row == row
        && RedisLock.Owner(store, row.unit, now) == token
    {
      hide Run, Next, OtherKeysKept;
      SameKeys(store, row.unit);
      var w: nat := TakeToken(row);
      assert waits[..0] == [];
      var held := Attempt(w, row);
      if held {
        assert TriedUntil(old(store), row.unit, old(now), waits, 0);
        return Some(w);
      }
      assert waits[..|waits|] == waits;
      for k := 0 to |waits|
        invariant Valid() && Quiet() && old(trace) <= trace
        invariant store == old(store) && now == old(now) + Total(waits[..k])
        invariant forall j :: 0 <= j <= k ==> RedisLock.Owner(store, row.unit, old(now) + Total(waits[..j])).Some?
        invariant At(Last(), w, Acquiring) && Last().requests[w].row == row
      {
        assert waits[..k + 1][..k] == waits[..k];
        TotalOfPrefix(waits, k + 1);
        Wait(waits[k]);
        held := Attempt(w, row);
        if held {
          assert TriedUntil(old(store), row.unit, old(now), waits, k + 1);
          return Some(w);
        }
      }
      Withdraw(w);
      assert TriedUntil(old(store), row.unit, old(now), waits, |waits|);
      return None;
    }

    /** One SET NX PX. */
    method Attempt(w: nat, row: Booking) returns (held: bool)
      requires Valid() && At(Last(), w, Acquiring) && Last().requests[w].row == row
      modifies this`store, this`trace
      ensures Valid() && old(trace) <= trace && Last().rowLocks == old(Last().rowLocks)
      ensures held <==> RedisLock.Owner(old(store), row.unit, now).None?
      ensures held ==> At(Last(), w, InSection) && RedisLock.Owner(store, row.unit, now) == Some(w)
      ensures OtherKeysKept(old(store), store, row.unit)
      ensures !held ==> At(Last(), w, Acquiring) && store == old(store)
      ensures w < |Last().requests| && Last().requests[w].row == row
    {
      hide Run;
      var ok := RedisLock.SetNx(store, row.unit, w, UNIT_LOCK_TTL_MS, now);
      held := ok.Some?;
      if held {
        store := ok.value;
        Log(Acquire(w));
      }
    }

    method Wait(elapsed: nat)
      requires Valid()
      modifies this`now, this`trace
      ensures Valid() && old(trace) <= trace && now == old(now) + elapsed
      ensures Last().rowLocks == old(Last().rowLocks) && Last().requests == old(Last().requests)
    {
      hide Run;
      now := now + elapsed;
      Log(Tick(elapsed));
    }

    method Withdraw(w: nat)
      requires Valid() && At(Last(), w, Acquiring)
      modifies this`trace
      ensures Valid() && old(trace) <= trace && Last().rowLocks == old(Last().rowLocks)
    {
      hide Run;
      Log(GiveUp(w));
    }

    method TakeToken(row: Booking) returns (w: nat)
      requires Valid()
      modifies this`arrivals, this`trace
      ensures Valid() && old(trace) <= trace && Last().rowLocks == old(Last().rowLocks)
      ensures At(Last(), w, Acquiring) && Last().requests[w].row == row
    {
      hide Run;
      w := arrivals;
      arrivals := arrivals + 1;
      Log(Arrive(row));
    }

    /** Check, claim, insert: all of it or none of it. */
    method HoldTransaction(w: nat, row: Booking) returns (r: Result<nat, HoldError>)
      requires Valid() && Quiet() && At(Last(), w, InSection) && Last().requests[w].row == row && row.checkIn < row.checkOut
      modifies this`bookings, this`deals, this`trace
      ensures Valid() && Quiet() && old(trace) <= trace
      ensures w < |Last().requests| && Last().requests[w].phase.Leaving? && Last().requests[w].row == row
      ensures r.Success? <==> old(Refusal(row)).None?
      ensures r.Success? ==> r.value == |old(bookings)| && HoldPlaced(old(bookings), old(deals), row)
      ensures r.Failure? ==> r.error in {HoldError.UnitUnavailable, FlashDealSoldOut, StatementFailed} && bookings == old(bookings) && deals == old(deals)
      ensures r.Failure? && row.turnaroundMinutes >= 0 ==> old(Refusal(row)) == Some(r.error)
    {
      hide Run;
      RangesAreOk();
      if row.turnaroundMinutes >= 0 {
        NoConflictIffVacant(bookings, blocks, row.unit, row.checkIn, row.checkOut, row.turnaroundMinutes);
      }
      hide Vacant, RangesOk;
      Log(Check(w));
      if HasConflict(bookings, blocks, row.unit, row.checkIn, row.checkOut, row.turnaroundMinutes) {
        return Failure(HoldError.UnitUnavailable);
      }
      if row.deal.Some? {
        var d := row.deal.value;
        Log(ClaimDeal(w));
        if d >= |deals| || !Claimable(deals[d]) {
          return Failure(FlashDealSoldOut);
        }
      }
      r := ClaimAndInsert(w, row);
    }

    /** The two writes of the transaction; when the insert raises, the claim goes with it. */
    method ClaimAndInsert(w: nat, row: Booking) returns (r: Result<nat, HoldError>)
      requires Valid() && ReadyToInsert(Last(), w) && Last().requests[w].row == row
      requires DealOpen(row) && (row.deal.Some? ==> Last().rowLocks == map[row.deal.value := w])
      requires row.deal.None? ==> Quiet()
      requires !HasConflict(bookings, blocks, row.unit, row.checkIn, row.checkOut, row.turnaroundMinutes)
      modifies this`bookings, this`deals, this`trace
      ensures Valid() && Quiet() && old(trace) <= trace
      ensures w < |Last().requests| && Last().requests[w].phase.Leaving? && Last().requests[w].row == row
      ensures r.Success? <==> InsertChecks(row)
      ensures r.Success? ==> r.value == |old(bookings)| && HoldPlaced(old(bookings), old(deals), row)
      ensures r.Failure? ==> r.error == StatementFailed && bookings == old(bookings) && deals == old(deals)
    {
      hide Run;
      var before := deals;
      if row.deal.Some? {
        deals := deals[row.deal.value := Claimed(deals[row.deal.value])];
      }
      var inserted := InsertHold(bookings, blocks, row, now);
      if !inserted.Wrote? {
        deals := before;
        Log(Commit(w));
        return Failure(StatementFailed);
      }
      r := Success(|bookings|);
      bookings := inserted.value;
      Log(Commit(w));
    }

    method Leave(w: nat, unit: nat)
      requires Valid() && Quiet() && w < |Last().requests| && Last().requests[w].phase.Leaving? && Last().requests[w].row.unit == unit
      modifies this`store, this`trace
      ensures Valid() && Quiet() && old(trace) <= trace
      ensures RedisLock.Owner(old(store), unit, now) == Some(w) ==> RedisLock.Owner(store, unit, now).None?
      ensures OtherKeysKept(old(store), store, unit)
    {
      hide Run;
      store := RedisLock.Released(store, unit, w, now);
      Log(Release(w));
    }

    // ---- deals ----

    /**
     * A new deal is stored exactly when its window is open-ended by at most 72 hours, its
     * discount is from 5 to 90 percent, it has a slot to sell, and its window has no
     * instant in common with that of an open deal of its unit. It is active from the
     * start if by the application's clock its window has begun.
     */
    method CreateDeal(deal: Deal, appNow: int) returns (r: Result<nat, DealError>)
      requires Valid()
      modifies this`deals, this`trace
      ensures Valid() && old(trace) <= trace && Last().rowLocks == old(Last().rowLocks)
      ensures
        var sound :=
          && deal.startsAt < deal.endsAt <= deal.startsAt + 259_200_000
          && 500 <= deal.discountPct <= 9_000 && deal.total >= 1;
        var clashes := exists d :: 0 <= d < |old(deals)| && old(deals)[d].unit == deal.unit && old(deals)[d].status in {Scheduled, Active}
                                   && old(deals)[d].startsAt < deal.endsAt && deal.startsAt < old(deals)[d].endsAt;
        r == if !sound then Failure(DealInvalid) else if clashes then Failure(DealRejected) else Success(|old(deals)|)
      ensures deals == old(deals) + if r.Failure? then []
                                    else [deal.(status := if deal.startsAt <= appNow then Active else Scheduled, claimed := 0)]
    {
      hide Run;
      if !DealChecks(deal) {
        return Failure(DealInvalid);
      }
      WindowsAreOk();
      var row := deal.(status := if deal.startsAt <= appNow then Active else Scheduled, claimed := 0);
      if ClashesWithAny(deals, row) {
        return Failure(DealRejected);
      }
      r := Success(|deals|);
      deals := deals + [row];
      Log(Step.CreateDeal(deal, appNow));
    }

    lemma WindowsAreOk()
      requires Valid()
      ensures forall d :: 0 <= d < |deals| ==> deals[d].startsAt < deals[d].endsAt
    {
      HoldTheorems.RunIsSafe(fsm, trace, |trace| - 1);
      forall d | 0 <= d < |deals| ensures deals[d].startsAt < deals[d].endsAt {
        assert HoldTheorems.DealOk(bookings, deals, d);
      }
    }

    /** The activation sweep: exactly the scheduled deals whose window is open become active, and their ids are reported. */
    method ActivateDue() returns (activated: seq<nat>)
      requires Valid() && Quiet()
      modifies this`deals, this`trace
      ensures Valid() && Quiet() && old(trace) <= trace && |deals| == |old(deals)|
      ensures forall d :: 0 <= d < |deals| ==> deals[d] == if DueAt(old(deals)[d], now) then old(deals)[d].(status := Active) else old(deals)[d]
      ensures forall d: nat :: d in activated <==> d < |deals| && DueAt(old(deals)[d], now)
    {
      hide Run, Next;
      activated := [];
      for d := 0 to |deals|
        invariant Valid() && Quiet() && old(trace) <= trace && |deals| == |old(deals)|
        invariant forall k :: 0 <= k < |deals| ==> deals[k] == if k < d then Activated(old(deals)[k], now) else old(deals)[k]
        invariant forall k: nat :: k in activated <==> k < d && deals[k] != old(deals)[k]
      {
        var deal := Activated(deals[d], now);
        if deal != deals[d] {
          activated := activated + [d];
        }
        SweepRow(d, deal, Step.ActivateDue(d));
      }
    }

    /** The closing sweep: exactly the open deals whose window is over end, and their ids are reported. */
    method EndExpired() returns (ended: seq<nat>)
      requires Valid() && Quiet()
      modifies this`deals, this`trace
      ensures Valid() && Quiet() && old(trace) <= trace && |deals| == |old(deals)|
      ensures forall d :: 0 <= d < |deals| ==> deals[d] == if OverAt(old(deals)[d], now) then old(deals)[d].(status := Ended) else old(deals)[d]
      ensures forall d: nat :: d in ended <==> d < |deals| && OverAt(old(deals)[d], now)
    {
      hide Run, Next;
      ended := [];
      for d := 0 to |deals|
        invariant Valid() && Quiet() && old(trace) <= trace && |deals| == |old(deals)|
        invariant forall k :: 0 <= k < |deals| ==> deals[k] == if k < d then Closed(old(deals)[k], now) else old(deals)[k]
        invariant forall k: nat :: k in ended <==> k < d && deals[k] != old(deals)[k]
      {
        var deal := Closed(deals[d], now);
        if deal != deals[d] {
          ended := ended + [d];
        }
        SweepRow(d, deal, Step.EndExpired(d));
      }
    }

    method SweepRow(d: nat, deal: Deal, ghost step: Step)
      requires Valid() && Quiet() && d < |deals|
      requires || (step == Step.ActivateDue(d) && deal == Activated(deals[d], now))
               || (step == Step.EndExpired(d) && deal == Closed(deals[d], now))
      modifies this`deals, this`trace
      ensures Valid() && Quiet() && old(trace) <= trace && deals == old(deals)[d := deal]
    {
      hide Run;
      deals := deals[d := deal];
      Log(step);
    }

    /**
     * The scheduler's sweep: an open deal whose window is over has ended, a scheduled one
     * whose window is open is active, and every other deal is as it was. What changed is
     * reported, once.
     */
    method RunLifecycle() returns (activated: seq<nat>, ended: seq<nat>)
      requires Valid() && Quiet()
      modifies this`deals, this`trace
      ensures Valid() && Quiet() && old(trace) <= trace && |deals| == |old(deals)|
      ensures forall d :: 0 <= d < |deals| ==>
        deals[d] == if OverAt(old(deals)[d], now) then old(deals)[d].(status := Ended)
                    else if DueAt(old(deals)[d], now) then old(deals)[d].(status := Active)
                    else old(deals)[d]
      ensures forall d: nat :: d in activated <==> d < |deals| && DueAt(old(deals)[d], now)
      ensures forall d: nat :: d in ended <==> d < |deals| && OverAt(old(deals)[d], now)
      ensures forall d :: d in activated ==> d !in ended
    {
      hide Run, Next;
      activated := ActivateDue();
      ended := EndExpired();
    }
  }
}
