/** The booking's own life: confirm, cancel, check in, complete, expire. */
module BookingServices {
  import opened Common
  import opened BookingFsm
  import opened Bookings
  import opened EscrowProtocol
  import opened EscrowSteps
  import opened EscrowSafety
  import opened EscrowTheorems
  import opened Persistence
  import opened Repositories

  datatype BookingError = BookingNotFound | InvalidTransition | HoldExpired | StaleState | StatementFailed

  class BookingService {
    const db: Database
    const bookings: BookingRepository

    constructor (db: Database)
      ensures this.db == db && Wired()
    {
      this.db := db;
      bookings := new BookingRepository(db);
    }

    predicate Wired() {
      bookings.db == db
    }

    /** Row b moved to a status at this instant, its history one stamp longer, every other row as it was. */
    ghost predicate MovedTo(before: seq<Booking>, b: nat, to: Status)
      reads db
    {
      && b < |before| == |db.bookings|
      && db.bookings[b] == before[b].(status := to, history := before[b].history + [Stamp(to, db.now)])
      && forall k :: 0 <= k < |before| && k != b ==> db.bookings[k] == before[k]
    }

    /**
     * The insert at the heart of createHold: it commits exactly for a sound row in whose
     * way no booking and no host block is, turnarounds included.
     */
    method PlaceHold(row: Booking) returns (r: Result<nat, BookingError>)
      requires Wired() && db.Valid()
      modifies db`bookings, db`trace
      ensures db.Valid() && old(db.trace) <= db.trace
      ensures r.Success? <==>
        InsertChecks(row) && Vacant(old(db.bookings), db.blocks, row.unit, row.checkIn, row.checkOut, row.turnaroundMinutes)
      ensures r.Success? ==>
        && r.value == |old(db.bookings)|
        && db.bookings == old(db.bookings) + [row.(status := PendingPayment, history := [Stamp(PendingPayment, db.now)])]
      ensures r.Failure? ==> r.error == StatementFailed && db.bookings == old(db.bookings)
    {
      hide Run, Next;
      NeverDoubleBooked(db.fsm, db.trace, |db.trace| - 1);
      InsertHoldIff(db.bookings, db.blocks, row, db.now);
      var inserted := bookings.InsertHold(row);
      if !inserted.Wrote? {
        return Failure(StatementFailed);
      }
      HoldSteps(db.fsm, db.Last(), row, 0);
      db.Log(Step.PlaceHold(row));
      return Success(inserted.value);
    }

    /** What a confirmation ends in, by the row it finds and the two clocks; None if it is confirmed. */
    ghost function Refusal(b: nat, appNow: int): Option<BookingError>
      reads db
    {
      if b >= |db.bookings| then Some(BookingNotFound)
      else
        var row := db.bookings[b];
        if (row.status, Confirmed) !in db.fsm then Some(BookingError.InvalidTransition)
        else if row.status == Expired then Some(BookingError.HoldExpired)
        else if row.status != PendingPayment then Some(StaleState)
        else if row.holdExpiresAt <= db.now then Some(if row.holdExpiresAt <= appNow then BookingError.HoldExpired else StaleState)
        else if exists k :: 0 <= k < |db.blocks| && BlockInTheWay(db.blocks[k], row.unit, row.checkIn, row.checkOut, row.turnaroundMinutes)
        then Some(StatementFailed)
        else None
    }

    /**
     * Confirm a paid hold. It succeeds exactly for a pending hold strictly before its
     * deadline, if the whitelist has the move and no host block is in the way: no other
     * booking can be. It reports HoldExpired exactly for a hold that has expired, or
     * whose deadline has passed by the database's clock and by the application's.
     */
    method Confirm(b: nat, appNow: int) returns (r: Result<(), BookingError>)
      requires Wired() && db.Valid()
      modifies db`bookings, db`trace
      ensures db.Valid() && old(db.trace) <= db.trace
      ensures r.Success? ==> MovedTo(old(db.bookings), b, Confirmed)
      ensures r.Failure? ==> db.bookings == old(db.bookings)
      ensures r == match old(Refusal(b, appNow)) case None => Success(()) case Some(error) => Failure(error)
    {
      hide Run, Next;
      if b >= |db.bookings| {
        return Failure(BookingNotFound);
      }
      if (db.bookings[b].status, Confirmed) !in db.fsm {
        return Failure(BookingError.InvalidTransition);
      }
      NeverDoubleBooked(db.fsm, db.trace, |db.trace| - 1);
      ConfirmIff(db.bookings, db.blocks, db.fsm, b, db.now);
      hide Bookings.ConfirmHold, NoDoubleBooking, RangesOk;
      var confirmed := bookings.ConfirmHold(b);
      match confirmed
      case Wrote(_) =>
        HoldSteps(db.fsm, db.Last(), db.bookings[b], b);
        db.Log(ConfirmDirectly(b));
        return Success(());
      case Rejected =>
        return Failure(StatementFailed);
      case NoRow =>
        var row := db.bookings[b];
        if row.status == Expired || (row.status == PendingPayment && row.holdExpiresAt <= appNow) {
          return Failure(BookingError.HoldExpired);
        }
        return Failure(StaleState);
    }

    // A cancellation and a simple transition read the booking in one statement and swap
    // its status in another. The second half is stated from any store in which the
    // first has been done, so any other calls may come between the two.

    /** The read of a transition: the status it goes on with, or why it does not. */
    ghost function Read(b: nat, to: Status): Result<Status, BookingError>
      reads db
    {
      if b >= |db.bookings| then Failure(BookingNotFound)
      else if (db.bookings[b].status, to) !in db.fsm then Failure(BookingError.InvalidTransition)
      else Success(db.bookings[b].status)
    }

    /** Read the booking and assert the move. */
    method BeginCancel(b: nat, ghost w: nat) returns (r: Result<Status, BookingError>)
      requires db.Valid() && db.Idle(w)
      modifies db`trace
      ensures db.Valid() && old(db.trace) <= db.trace
      ensures r == Read(b, Status.Cancelled)
      ensures r.Success? ==> db.WorkerAt(w, ReadyToCancel(b, r.value))
      ensures r.Failure? ==> db.Idle(w)
    {
      hide Run, Next;
      if b >= |db.bookings| {
        return Failure(BookingNotFound);
      }
      if (db.bookings[b].status, Status.Cancelled) !in db.fsm {
        return Failure(BookingError.InvalidTransition);
      }
      CancelSteps(db.fsm, db.Last(), w, b);
      db.Log(StartCancel(w, b));
      return Success(db.bookings[b].status);
    }

    /** The worker of a transition knows that its booking exists and that its move is whitelisted. */
    lemma ReadStands(w: nat)
      requires db.Valid() && w in db.Last().workers
      ensures
        match db.Last().workers[w]
        case ReadyToCancel(b, from) => b < |db.bookings| && (from, Status.Cancelled) in db.fsm
        case ReadyToMove(b, from, to) => b < |db.bookings| && (from, to) in db.fsm && to in {CheckedIn, Completed}
        case _ => true
    {
      RunInv(db.fsm, db.trace, |db.trace| - 1);
      assert WorkerOk(db.fsm, db.Last().db, db.Last().now, db.Last().workers[w]);
    }

    /**
     * The swap, however stale the read. It commits exactly if the booking still has the
     * status that was read, and only then queues the refund job, which finds out
     * whether there is money to return; a lost swap changes nothing.
     */
    method CommitCancel(b: nat, from: Status, ghost w: nat) returns (r: Result<(), BookingError>)
      requires Wired() && db.Valid() && db.WorkerAt(w, ReadyToCancel(b, from))
      modifies db`bookings, db`jobs, db`trace
      ensures db.Valid() && old(db.trace) <= db.trace && db.Idle(w)
      ensures b < |old(db.bookings)|
      ensures r == if old(db.bookings)[b].status == from then Success(()) else Failure(StaleState)
      ensures r.Failure? ==> db.bookings == old(db.bookings) && db.jobs == old(db.jobs)
      ensures r.Success? ==>
        && db.jobs == old(db.jobs) + {CreateRefund(b)}
        && if from == Status.Cancelled then db.bookings == old(db.bookings) else MovedTo(old(db.bookings), b, Status.Cancelled)
    {
      hide Run, Next, Bookings.Transition, NoDoubleBooking, RangesOk;
      ReadStands(w);
      NeverDoubleBooked(db.fsm, db.trace, |db.trace| - 1);
      SwapIff(db.bookings, db.blocks, db.fsm, b, from, Status.Cancelled, db.now);
      CancelSteps(db.fsm, db.Last(), w, b);
      var cancelled := bookings.Transition(b, from, Status.Cancelled);
      db.Log(CancelSwap(w));
      if !cancelled.Wrote? {
        return Failure(if cancelled.NoRow? then StaleState else StatementFailed);
      }
      QueueRefund(b, w);
      return Success(());
    }

    method QueueRefund(b: nat, ghost w: nat)
      requires db.Valid() && db.WorkerAt(w, CancelCommitted(b))
      modifies db`jobs, db`trace
      ensures db.Valid() && old(db.trace) <= db.trace && db.Idle(w)
      ensures db.jobs == old(db.jobs) + {CreateRefund(b)}
    {
      hide Run, Next;
      CancelSteps(db.fsm, db.Last(), w, b);
      db.Add(CreateRefund(b));
      db.Log(CancelEnqueue(w));
    }

    /** Cancel, with nothing between the two halves. */
    method Cancel(b: nat, ghost w: nat) returns (r: Result<(), BookingError>)
      requires Wired() && db.Valid() && db.Idle(w)
      modifies db`bookings, db`jobs, db`trace
      ensures db.Valid() && old(db.trace) <= db.trace && db.Idle(w)
      ensures r == match old(Read(b, Status.Cancelled)) case Success(_) => Success(()) case Failure(error) => Failure(error)
      ensures db.jobs == old(db.jobs) + if r.Success? then {CreateRefund(b)} else {}
      ensures r.Failure? ==> db.bookings == old(db.bookings)
      ensures r.Success? ==>
        && b < |old(db.bookings)|
        && if old(db.bookings)[b].status == Status.Cancelled then db.bookings == old(db.bookings)
           else MovedTo(old(db.bookings), b, Status.Cancelled)
    {
      hide Run, Next;
      var current := BeginCancel(b, w);
      if current.Failure? {
        return Failure(current.error);
      }
      r := CommitCancel(b, current.value, w);
    }

    /** checkIn and complete: read the booking and assert the move. */
    method BeginMove(b: nat, to: Status, ghost w: nat) returns (r: Result<Status, BookingError>)
      requires db.Valid() && db.Idle(w) && to in {CheckedIn, Completed}
      modifies db`trace
      ensures db.Valid() && old(db.trace) <= db.trace
      ensures r == Read(b, to)
      ensures r.Success? ==> db.WorkerAt(w, ReadyToMove(b, r.value, to))
      ensures r.Failure? ==> db.Idle(w)
    {
      hide Run, Next;
      if b >= |db.bookings| {
        return Failure(BookingNotFound);
      }
      if (db.bookings[b].status, to) !in db.fsm {
        return Failure(BookingError.InvalidTransition);
      }
      MoveSteps(db.fsm, db.Last(), w, b, to);
      db.Log(StartMove(w, b, to));
      return Success(db.bookings[b].status);
    }

    /**
     * The swap, however stale the read. It commits exactly if the booking still has the
     * status that was read and, for a check-in, nothing is in the way of the stay; a
     * committed completion queues the payout job, a lost swap changes nothing.
     */
    method CommitMove(b: nat, from: Status, to: Status, ghost w: nat) returns (r: Result<(), BookingError>)
      requires Wired() && db.Valid() && db.WorkerAt(w, ReadyToMove(b, from, to))
      modifies db`bookings, db`jobs, db`trace
      ensures db.Valid() && old(db.trace) <= db.trace && db.Idle(w)
      ensures b < |old(db.bookings)|
      ensures r == if old(db.bookings)[b].status != from then Failure(StaleState)
                   else if Admits(old(db.bookings), db.blocks, b, from, to) then Success(()) else Failure(StatementFailed)
      ensures r.Failure? ==> db.bookings == old(db.bookings) && db.jobs == old(db.jobs)
      ensures r.Success? ==>
        && (if from == to then db.bookings == old(db.bookings) else MovedTo(old(db.bookings), b, to))
        && db.jobs == old(db.jobs) + if to == Completed then {CreatePayout(b)} else {}
    {
      hide Run, Next, Bookings.Transition, NoDoubleBooking, RangesOk, Admits;
      ReadStands(w);
      NeverDoubleBooked(db.fsm, db.trace, |db.trace| - 1);
      SwapIff(db.bookings, db.blocks, db.fsm, b, from, to, db.now);
      MoveSteps(db.fsm, db.Last(), w, b, to);
      var updated := bookings.Transition(b, from, to);
      db.Log(MoveSwap(w));
      if !updated.Wrote? {
        return Failure(if updated.NoRow? then StaleState else StatementFailed);
      }
      if to == Completed {
        QueuePayout(b, w);
      }
      return Success(());
    }

    method QueuePayout(b: nat, ghost w: nat)
      requires db.Valid() && db.WorkerAt(w, CompletionCommitted(b))
      modifies db`jobs, db`trace
      ensures db.Valid() && old(db.trace) <= db.trace && db.Idle(w)
      ensures db.jobs == old(db.jobs) + {CreatePayout(b)}
    {
      hide Run, Next;
      MoveSteps(db.fsm, db.Last(), w, b, Completed);
      db.Add(CreatePayout(b));
      db.Log(CompleteEnqueue(w));
    }

    /** checkIn and complete, with nothing between the two halves. */
    method SimpleTransition(b: nat, to: Status, ghost w: nat) returns (r: Result<(), BookingError>)
      requires Wired() && db.Valid() && db.Idle(w) && to in {CheckedIn, Completed}
      modifies db`bookings, db`jobs, db`trace
      ensures db.Valid() && old(db.trace) <= db.trace && db.Idle(w)
      ensures r == match old(Read(b, to))
                   case Failure(error) => Failure(error)
                   case Success(from) =>
                     if Admits(old(db.bookings), db.blocks, b, from, to) then Success(()) else Failure(StatementFailed)
      ensures r.Failure? ==> db.bookings == old(db.bookings) && db.jobs == old(db.jobs)
      ensures r.Success? ==>
        && b < |old(db.bookings)|
        && (if old(db.bookings)[b].status == to then db.bookings == old(db.bookings) else MovedTo(old(db.bookings), b, to))
        && db.jobs == old(db.jobs) + if to == Completed then {CreatePayout(b)} else {}
    {
      hide Run, Next, Admits;
      var current := BeginMove(b, to, w);
      if current.Failure? {
        return Failure(current.error);
      }
      r := CommitMove(b, current.value, to, w);
    }

    /** The delayed expiry job: it changes exactly a pending hold at or past its deadline. */
    method ExpireHold(b: nat) returns (expired: bool)
      requires Wired() && db.Valid()
      modifies db`bookings, db`trace
      ensures db.Valid() && old(db.trace) <= db.trace
      ensures expired ==> MovedTo(old(db.bookings), b, Expired)
      ensures !expired ==> db.bookings == old(db.bookings)
      ensures expired <==>
        && b < |old(db.bookings)| && old(db.bookings)[b].status == PendingPayment
        && old(db.bookings)[b].holdExpiresAt <= db.now && (PendingPayment, Expired) in db.fsm
    {
      hide Run, Next;
      var r := bookings.ExpireIfLapsed(b);
      if r.Wrote? {
        HoldSteps(db.fsm, db.Last(), db.bookings[b], b);
        db.Log(Expire(b));
      }
      return r.Wrote?;
    }
  }
}
