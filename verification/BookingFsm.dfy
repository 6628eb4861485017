/**
 * The booking life cycle as data: a whitelist of status changes that both the
 * in-process engine and the database trigger consult.
 */
module BookingFsm {

  datatype Status =
    | Draft | PendingPayment | Confirmed | CheckedIn | Completed | Cancelled | Expired | Refunded

  type Edge = (Status, Status)

  /** The rows of booking_fsm_transitions after migrations 0006 and 0015. */
  const MIGRATED_FSM: set<Edge> := {
    (Draft, PendingPayment), (Draft, Cancelled),
    (PendingPayment, Confirmed), (PendingPayment, Expired), (PendingPayment, Cancelled),
    (Confirmed, CheckedIn), (Confirmed, Cancelled), (Confirmed, Completed),
    (CheckedIn, Completed), (CheckedIn, Cancelled),
    (Cancelled, Refunded), (Completed, Refunded)}

  /** Statuses that hold inventory: the predicate of the partial exclusion constraint. */
  predicate Blocking(s: Status) {
    s in {PendingPayment, Confirmed, CheckedIn}
  }

  /** Statuses from which a stay can no longer take place. */
  predicate Released(s: Status) {
    s in {Cancelled, Expired, Refunded}
  }

  // ---- hypotheses about a whitelist ----

  /** A released booking stays released. */
  ghost predicate ReleasedStaysReleased(fsm: set<Edge>) {
    forall e :: e in fsm && Released(e.0) ==> Released(e.1)
  }

  /** Neither an unpaid nor a finished booking can be checked in or completed, nor a finished one cancelled. */
  ghost predicate CompletionIsLate(fsm: set<Edge>) {
    && (forall e :: e in fsm && e.0 == PendingPayment ==> e.1 !in {CheckedIn, Completed})
    && (forall e :: e in fsm && e.0 == Completed ==> e.1 == Refunded)
  }

  ghost predicate DraftIsEntry(fsm: set<Edge>) {
    forall e :: e in fsm ==> e.1 != Draft
  }

  /** Awaiting payment is an entry status: nothing but a draft leads to it, and nothing to a draft. */
  ghost predicate PendingIsEntry(fsm: set<Edge>) {
    DraftIsEntry(fsm) && forall e :: e in fsm && e.1 == PendingPayment ==> e.0 == Draft
  }

  /** No status that releases inventory leads back to one that holds it. */
  ghost predicate BlockingIsNotReentered(fsm: set<Edge>) {
    forall e :: e in fsm && Blocking(e.1) ==> Blocking(e.0) || e.0 == Draft
  }

  /** What the funding of refunds and payouts rests on. */
  ghost predicate SafeFsm(fsm: set<Edge>) {
    ReleasedStaysReleased(fsm) && CompletionIsLate(fsm) && PendingIsEntry(fsm)
  }

  lemma MigratedFsmIsSafe()
    ensures SafeFsm(MIGRATED_FSM) && BlockingIsNotReentered(MIGRATED_FSM)
  {
  }

  /** The migrated whitelist, status by status. */
  lemma MigratedMoves(s: Status, to: Status)
    ensures (s, to) in MIGRATED_FSM <==>
      match s
      case Draft => to in {PendingPayment, Cancelled}
      case PendingPayment => to in {Confirmed, Expired, Cancelled}
      case Confirmed => to in {CheckedIn, Completed, Cancelled}
      case CheckedIn => to in {Completed, Cancelled}
      case Completed => to == Refunded
      case Cancelled => to == Refunded
      case Expired => false
      case Refunded => false
  {
  }

  /** A sequence of statuses each of which leads to the next. */
  ghost predicate Walk(fsm: set<Edge>, w: seq<Status>) {
    forall i :: 0 <= i < |w| - 1 ==> (w[i], w[i + 1]) in fsm
  }

  function Rank(s: Status): nat {
    match s
    case Draft => 0
    case PendingPayment => 1
    case Confirmed => 2
    case CheckedIn => 3
    case Completed => 4
    case Cancelled => 4
    case Expired => 4
    case Refunded => 5
  }

  /** A whitelist without cycles: some rank rises along every edge. */
  ghost predicate Ranked(fsm: set<Edge>, rank: Status -> int) {
    forall e :: e in fsm ==> rank(e.0) < rank(e.1)
  }

  /** Every move of a walk of a ranked whitelist raises the rank. */
  lemma {:induction false} WalkRanksGrow(fsm: set<Edge>, rank: Status -> int, w: seq<Status>, i: nat, j: nat)
    requires Ranked(fsm, rank) && Walk(fsm, w) && i <= j < |w|
    ensures rank(w[j]) - rank(w[i]) >= j - i
    decreases j
  {
    if i < j {
      WalkRanksGrow(fsm, rank, w, i, j - 1);
      assert (w[j - 1], w[j]) in fsm;
    }
  }

  /** The migrated life cycle has no cycles. */
  lemma MigratedFsmIsRanked()
    ensures Ranked(MIGRATED_FSM, s => Rank(s))
  {
  }

  /** So no booking enters a status twice, and none makes more than five moves. */
  lemma WalkNeverRepeats(w: seq<Status>)
    requires Walk(MIGRATED_FSM, w)
    ensures forall i, j :: 0 <= i < j < |w| ==> w[i] != w[j]
    ensures |w| <= 6
  {
    var rank := s => Rank(s);
    MigratedFsmIsRanked();
    assert Ranked(MIGRATED_FSM, rank);
    forall i, j | 0 <= i < j < |w| ensures w[i] != w[j] {
      WalkRanksGrow(MIGRATED_FSM, rank, w, i, j);
    }
    if |w| > 0 {
      WalkRanksGrow(MIGRATED_FSM, rank, w, 0, |w| - 1);
    }
  }

  /** Once released, released for the rest of the walk; in particular never completed. */
  lemma {:induction false} ReleasedForever(fsm: set<Edge>, w: seq<Status>, i: nat, j: nat)
    requires ReleasedStaysReleased(fsm) && Walk(fsm, w)
    requires i <= j < |w| && Released(w[i])
    ensures Released(w[j])
    decreases j
  {
    if i < j {
      ReleasedForever(fsm, w, i, j - 1);
      assert (w[j - 1], w[j]) in fsm;
    }
  }

  /** The in-process engine: the whitelist indexed by source status. */
  class BookingFsmEngine {
    var transitions: map<Status, set<Status>>

    constructor ()
      ensures transitions == map[]
    {
      transitions := map[];
    }

    /** Loads the whitelist at boot, replacing whatever was loaded before. */
    method OnApplicationBootstrap(rows: seq<Edge>)
      modifies this
      ensures forall from, to :: CanTransition(from, to) <==> (from, to) in rows
      ensures forall from :: IsTerminal(from) <==> forall to :: (from, to) !in rows
    {
      transitions := map[];
      for i := 0 to |rows|
        invariant forall from, to :: CanTransition(from, to) <==> (from, to) in rows[..i]
      {
        var row := rows[i];
        if row.0 !in transitions {
          transitions := transitions[row.0 := {}];
        }
        transitions := transitions[row.0 := transitions[row.0] + {row.1}];
        assert rows[..i + 1] == rows[..i] + [row];
      }
      assert rows[..|rows|] == rows;
      forall from ensures IsTerminal(from) <==> forall to :: (from, to) !in rows {
        if from in transitions && transitions[from] != {} {
          var to :| to in transitions[from];
          assert CanTransition(from, to);
        } else {
          forall to ensures (from, to) !in rows {
            assert !CanTransition(from, to);
          }
        }
      }
    }

    predicate CanTransition(from: Status, to: Status)
      reads this
    {
      from in transitions && to in transitions[from]
    }

    function AllowedFrom(from: Status): set<Status>
      reads this
    {
      if from in transitions then transitions[from] else {}
    }

    predicate IsTerminal(from: Status)
      reads this
    {
      |AllowedFrom(from)| == 0
    }
  }

  /** With the migrated table, exactly the expired and refunded bookings are finished. */
  lemma MigratedTerminals(s: Status)
    ensures (forall to :: (s, to) !in MIGRATED_FSM) <==> s in {Expired, Refunded}
  {
    if s !in {Expired, Refunded} {
      var to := match s
        case Draft => Cancelled
        case PendingPayment => Expired
        case Confirmed => CheckedIn
        case CheckedIn => Completed
        case Completed => Refunded
        case Cancelled => Refunded;
      assert (s, to) in MIGRATED_FSM;
    }
  }
}
