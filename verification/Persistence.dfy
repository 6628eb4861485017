/**
 * The store the services update in place: the tables, the job queue, the provider's
 * record of transfers and the clock. A ghost trace records every step taken as a run
 * of the escrow machine, so that what is proved of all runs holds of every store
 * that the services have written.
 */
module Persistence {
  import opened Common
  import opened BookingFsm
  import opened Bookings
  import opened Ledger
  import opened EscrowTables
  import opened EscrowProtocol
  import opened EscrowSteps

  class Database {
    const fsm: set<Edge>
    var bookings: seq<Booking>
    var blocks: seq<Block>
    var payments: seq<Payment>
    var refunds: seq<Refund>
    var payouts: seq<Payout>
    var events: seq<Event>
    var ledger: seq<Entry>
    var adjustments: seq<Adjustment>
    var jobs: set<Job>
    var transfers: map<nat, string>
    var now: int
    ghost var trace: seq<State>

    constructor (fsm: set<Edge>, now: int)
      ensures Valid() && this.fsm == fsm && trace == [Init(now)]
    {
      this.fsm := fsm;
      bookings, blocks, payments, refunds, payouts := [], [], [], [], [];
      events, ledger, adjustments := [], [], [];
      jobs, transfers, this.now := {}, map[], now;
      trace := [Init(now)];
    }

    function Contents(): Tables
      reads this
    {
      Tables(bookings, blocks, payments, refunds, payouts, events, ledger, adjustments)
    }

    ghost function Last(): State
      requires |trace| > 0
      reads this
    {
      trace[|trace| - 1]
    }

    /** A worker of the machine is at a program point. */
    ghost predicate WorkerAt(w: nat, worker: Worker)
      reads this
    {
      |trace| > 0 && At(Last(), w) == Some(worker)
    }

    ghost predicate Idle(w: nat)
      reads this
    {
      |trace| > 0 && w !in Last().workers
    }

    ghost predicate Holds(s: State)
      reads this
    {
      s.db == Contents() && s.jobs == jobs && s.transfers == transfers && s.now == now
    }

    /** The store is the last state of a run of the machine. */
    ghost predicate Valid()
      reads this
    {
      Run(fsm, trace) && |trace| > 0 && Holds(Last())
    }

    /** What the store has become is what one step of the machine makes of its last state. */
    ghost method Log(step: Step)
      requires Run(fsm, trace) && |trace| > 0
      requires Next(fsm, Last(), step).Some? && Holds(Next(fsm, Last(), step).value)
      modifies this`trace
      ensures Valid()
      ensures old(trace) <= trace && trace == old(trace) + [Last()] && Next(fsm, old(Last()), step) == Some(Last())
    {
      hide Next;
      var s := Last();
      trace := trace + [Next(fsm, s, step).value];
      assert Follows(fsm, s, Last());
    }

    /** ROLLBACK of a money transaction: these are the tables that one can have written. */
    method Rollback(before: Tables)
      requires before == Contents().(
        payments := before.payments, refunds := before.refunds, payouts := before.payouts,
        ledger := before.ledger, adjustments := before.adjustments)
      modifies this`payments, this`refunds, this`payouts, this`ledger, this`adjustments
      ensures Contents() == before
    {
      payments, refunds, payouts := before.payments, before.refunds, before.payouts;
      ledger, adjustments := before.ledger, before.adjustments;
    }

    method Wait(elapsed: nat)
      requires Valid()
      modifies this`now, this`trace
      ensures Valid() && old(trace) <= trace && now == old(now) + elapsed
    {
      hide Run, Next;
      EnvironmentSteps(fsm, Last(), 0, elapsed);
      now := now + elapsed;
      Log(Tick(elapsed));
    }

    method Add(job: Job)
      modifies this`jobs
      ensures jobs == old(jobs) + {job}
    {
      jobs := jobs + {job};
    }
  }

  /** How a guarded write leaves the tables: as it says if it wrote, else as they were. */
  function After(before: Tables, w: Write<Tables>): Tables {
    if w.Wrote? then w.value else before
  }
}
