/**
 * The bookings table: its rows, its constraints and triggers, and the statements of
 * the booking repository as functions from the table before to the table after.
 * A row's id is its position; rows are never deleted.
 */
module Bookings {
  import opened Common
  import opened BookingFsm
  import opened Pricing

  /** One row of the append-only status history that the AFTER trigger writes. */
  datatype Stamp = Stamp(status: Status, at: int)

  datatype Booking = Booking(
    unit: nat,
    status: Status,
    checkIn: int,
    checkOut: int,
    turnaroundMinutes: int,
    holdExpiresAt: int,
    currency: string,
    money: Money,
    deal: Option<nat>,
    history: seq<Stamp>)

  /** A host block or maintenance window: [lo, hi) while active. */
  datatype Block = Block(unit: nat, lo: int, hi: int, active: bool)

  /** What a guarded write does: it changes a row, matches none, or the database raises an error. */
  datatype Write<+T> = Wrote(value: T) | NoRow | Rejected

  // ---- occupancy ----

  /** The exclusive upper end of a stay's blocking range: check-out plus the turnaround buffer. */
  function BlockEnd(checkOut: int, turnaroundMinutes: int): int {
    checkOut + turnaroundMinutes * MS_PER_MINUTE
  }

  /** Half-open ranges [lo, hi) and [lo', hi') share an instant; an empty range shares none. */
  predicate Overlaps(lo: int, hi: int, lo': int, hi': int) {
    lo < hi && lo' < hi' && lo < hi' && lo' < hi
  }

  predicate RowBlocks(b: Booking, unit: nat, lo: int, hi: int) {
    && b.unit == unit && Blocking(b.status)
    && Overlaps(b.checkIn, BlockEnd(b.checkOut, b.turnaroundMinutes), lo, hi)
  }

  predicate BookedDuring(bookings: seq<Booking>, unit: nat, lo: int, hi: int) {
    exists i :: 0 <= i < |bookings| && RowBlocks(bookings[i], unit, lo, hi)
  }

  predicate HostBlocked(blocks: seq<Block>, unit: nat, lo: int, hi: int) {
    exists i :: 0 <= i < |blocks| && blocks[i].unit == unit && blocks[i].active
                && Overlaps(blocks[i].lo, blocks[i].hi, lo, hi)
  }

  /** The availability query, shared by the pre-check of a hold and by search. */
  predicate HasConflict(bookings: seq<Booking>, blocks: seq<Block>, unit: nat, checkIn: int, checkOut: int, turnaroundMinutes: int) {
    var hi := BlockEnd(checkOut, turnaroundMinutes);
    BookedDuring(bookings, unit, checkIn, hi) || HostBlocked(blocks, unit, checkIn, hi)
  }

  /** No two inventory-holding bookings of one unit share an instant, buffers included. */
  ghost predicate NoDoubleBooking(bookings: seq<Booking>) {
    forall i, j :: 0 <= i < |bookings| && 0 <= j < |bookings| && i != j && Blocking(bookings[j].status) ==>
      !RowBlocks(bookings[i], bookings[j].unit, bookings[j].checkIn, BlockEnd(bookings[j].checkOut, bookings[j].turnaroundMinutes))
  }

  // ---- statements ----

  predicate InsertChecks(row: Booking) {
    && row.checkOut > row.checkIn
    && 0 <= row.turnaroundMinutes <= 240
    && MoneyChecks(row.money)
  }

  /** The row that `insertHold` writes: awaiting payment, with its first history stamp. */
  function FreshHold(row: Booking, now: int): Booking {
    row.(status := PendingPayment, history := [Stamp(PendingPayment, now)])
  }

  function InsertHold(bookings: seq<Booking>, blocks: seq<Block>, row: Booking, now: int): Write<seq<Booking>> {
    var hi := BlockEnd(row.checkOut, row.turnaroundMinutes);
    if !InsertChecks(row) then Rejected
    else if HostBlocked(blocks, row.unit, row.checkIn, hi) then Rejected
    else if BookedDuring(bookings, row.unit, row.checkIn, hi) then Rejected
    else Wrote(bookings + [FreshHold(row, now)])
  }

  /** The exclusion constraint against every row but the one being updated. */
  predicate OtherRowBlocks(bookings: seq<Booking>, id: nat, unit: nat, lo: int, hi: int) {
    exists i :: 0 <= i < |bookings| && i != id && RowBlocks(bookings[i], unit, lo, hi)
  }

  /** UPDATE ... SET status, as the FSM trigger, the block trigger and the exclusion constraint leave it. */
  function SetStatus(bookings: seq<Booking>, blocks: seq<Block>, fsm: set<Edge>, id: nat, to: Status, now: int): Write<seq<Booking>>
    requires id < |bookings|
  {
    var b := bookings[id];
    var hi := BlockEnd(b.checkOut, b.turnaroundMinutes);
    if b.status != to && (b.status, to) !in fsm then Rejected
    else if Blocking(to) && HostBlocked(blocks, b.unit, b.checkIn, hi) then Rejected
    else if b.status == to then Wrote(bookings)
    else if Blocking(to) && OtherRowBlocks(bookings, id, b.unit, b.checkIn, hi) then Rejected
    else Wrote(bookings[id := b.(status := to, history := b.history + [Stamp(to, now)])])
  }

  /** Compare-and-swap on the status alone: `transition` and `cancel`. */
  function Transition(
    bookings: seq<Booking>, blocks: seq<Block>, fsm: set<Edge>, id: nat, from: Status, to: Status, now: int)
    : Write<seq<Booking>>
  {
    if id >= |bookings| || bookings[id].status != from then NoRow
    else SetStatus(bookings, blocks, fsm, id, to, now)
  }

  /** PENDING_PAYMENT -> CONFIRMED, only while the hold is alive. */
  function ConfirmHold(bookings: seq<Booking>, blocks: seq<Block>, fsm: set<Edge>, id: nat, now: int): Write<seq<Booking>> {
    if id >= |bookings| || bookings[id].status != PendingPayment || bookings[id].holdExpiresAt <= now then NoRow
    else SetStatus(bookings, blocks, fsm, id, Confirmed, now)
  }

  /** PENDING_PAYMENT -> EXPIRED, only once the hold has lapsed. */
  function ExpireIfLapsed(bookings: seq<Booking>, blocks: seq<Block>, fsm: set<Edge>, id: nat, now: int): Write<seq<Booking>> {
    if id >= |bookings| || bookings[id].status != PendingPayment || bookings[id].holdExpiresAt > now then NoRow
    else SetStatus(bookings, blocks, fsm, id, Expired, now)
  }

  // ---- what every statement keeps ----

  ghost function Statuses(history: seq<Stamp>): (w: seq<Status>)
    ensures |w| == |history| && forall i :: 0 <= i < |w| ==> w[i] == history[i].status
  {
    seq(|history|, i requires 0 <= i < |history| => history[i].status)
  }

  /** A hold is confirmed strictly before its deadline, and expires at or after it. */
  ghost predicate StampsMeetDeadline(b: Booking) {
    forall i :: 0 <= i < |b.history| && b.history[i].status in {Confirmed, Expired} ==>
      && i > 0 && b.history[i - 1].status == PendingPayment
      && (b.history[i].status == Confirmed <==> b.history[i].at < b.holdExpiresAt)
  }

  /** The row's history is a walk of the whitelist from PENDING_PAYMENT to its status, in time order. */
  ghost predicate HistoryOk(fsm: set<Edge>, b: Booking, now: int) {
    && |b.history| > 0
    && b.history[0].status == PendingPayment
    && b.history[|b.history| - 1].status == b.status
    && Walk(fsm, Statuses(b.history))
    && (forall i, j :: 0 <= i <= j < |b.history| ==> b.history[i].at <= b.history[j].at <= now)
    && StampsMeetDeadline(b)
  }

  ghost predicate BookingsOk(fsm: set<Edge>, bookings: seq<Booking>, now: int) {
    forall i :: 0 <= i < |bookings| ==> InsertChecks(bookings[i]) && HistoryOk(fsm, bookings[i], now)
  }

  /** Nothing but the status ever changes, and the history only grows. */
  ghost predicate RowGrows(b: Booking, b': Booking) {
    && b' == b.(status := b'.status, history := b'.history)
    && b.history <= b'.history
    && (|b.history| == |b'.history| ==> b == b')
  }

  ghost predicate BookingsGrow(bookings: seq<Booking>, bookings': seq<Booking>) {
    && |bookings| <= |bookings'|
    && forall i :: 0 <= i < |bookings| ==> RowGrows(bookings[i], bookings'[i])
  }

  lemma InsertHoldKeeps(bookings: seq<Booking>, blocks: seq<Block>, fsm: set<Edge>, row: Booking, now: int)
    requires InsertHold(bookings, blocks, row, now).Wrote?
    ensures
      var bookings' := InsertHold(bookings, blocks, row, now).value;
      && BookingsGrow(bookings, bookings')
      && (BookingsOk(fsm, bookings, now) ==> BookingsOk(fsm, bookings', now))
      && (NoDoubleBooking(bookings) ==> NoDoubleBooking(bookings'))
  {
  }

  /** One whitelisted move extends a row's history. */
  lemma MoveKeepsHistory(fsm: set<Edge>, b: Booking, to: Status, now: int)
    requires HistoryOk(fsm, b, now) && (b.status, to) in fsm
    requires to == Confirmed ==> b.status == PendingPayment && now < b.holdExpiresAt
    requires to == Expired ==> b.status == PendingPayment && b.holdExpiresAt <= now
    ensures HistoryOk(fsm, b.(status := to, history := b.history + [Stamp(to, now)]), now)
  {
    var b' := b.(status := to, history := b.history + [Stamp(to, now)]);
    var w, w' := Statuses(b.history), Statuses(b'.history);
    assert w' == w + [to];
    forall i | 0 <= i < |w'| - 1 ensures (w'[i], w'[i + 1]) in fsm {
      if i < |w| - 1 {
        assert (w[i], w[i + 1]) in fsm;
      }
    }
  }

  lemma MoveKeepsOccupancy(bookings: seq<Booking>, id: nat, b': Booking)
    requires NoDoubleBooking(bookings) && id < |bookings| && RowGrows(bookings[id], b')
    requires Blocking(b'.status) ==>
      !OtherRowBlocks(bookings, id, b'.unit, b'.checkIn, BlockEnd(b'.checkOut, b'.turnaroundMinutes))
    ensures NoDoubleBooking(bookings[id := b'])
  {
    var bookings' := bookings[id := b'];
    forall i, j | 0 <= i < |bookings'| && 0 <= j < |bookings'| && i != j && Blocking(bookings'[j].status)
      ensures !RowBlocks(bookings'[i], bookings'[j].unit, bookings'[j].checkIn, BlockEnd(bookings'[j].checkOut, bookings'[j].turnaroundMinutes))
    {
      if i == id && Blocking(b'.status) {
        assert !RowBlocks(bookings[j], b'.unit, b'.checkIn, BlockEnd(b'.checkOut, b'.turnaroundMinutes));
      }
    }
  }

  lemma StatusKeepsOccupancy(bookings: seq<Booking>, blocks: seq<Block>, fsm: set<Edge>, id: nat, to: Status, now: int)
    requires NoDoubleBooking(bookings)
    requires id < |bookings| && SetStatus(bookings, blocks, fsm, id, to, now).Wrote?
    ensures NoDoubleBooking(SetStatus(bookings, blocks, fsm, id, to, now).value)
  {
    var b := bookings[id];
    if b.status != to {
      MoveKeepsOccupancy(bookings, id, b.(status := to, history := b.history + [Stamp(to, now)]));
    }
  }

  /** A status change extends one row's history by one whitelisted move. */
  lemma SetStatusKeeps(bookings: seq<Booking>, blocks: seq<Block>, fsm: set<Edge>, id: nat, to: Status, now: int)
    requires BookingsOk(fsm, bookings, now)
    requires id < |bookings| && SetStatus(bookings, blocks, fsm, id, to, now).Wrote?
    requires to == Confirmed ==> bookings[id].status == PendingPayment && now < bookings[id].holdExpiresAt
    requires to == Expired ==> bookings[id].status == PendingPayment && bookings[id].holdExpiresAt <= now
    ensures
      var bookings' := SetStatus(bookings, blocks, fsm, id, to, now).value;
      && BookingsGrow(bookings, bookings')
      && |bookings'| == |bookings|
      && bookings'[id].status == to
      && (forall i :: 0 <= i < |bookings| && i != id ==> bookings'[i] == bookings[i])
      && BookingsOk(fsm, bookings', now)
      && (NoDoubleBooking(bookings) ==> NoDoubleBooking(bookings'))
  {
    var b := bookings[id];
    if b.status != to {
      var b' := b.(status := to, history := b.history + [Stamp(to, now)]);
      MoveKeepsHistory(fsm, b, to, now);
    }
    if NoDoubleBooking(bookings) {
      StatusKeepsOccupancy(bookings, blocks, fsm, id, to, now);
    }
  }

  /** Histories stay in order as the clock moves on. */
  lemma ClockKeepsBookings(fsm: set<Edge>, bookings: seq<Booking>, now: int, now': int)
    requires BookingsOk(fsm, bookings, now) && now <= now'
    ensures BookingsOk(fsm, bookings, now')
  {
  }

  /**
   * Confirm and expire partition on the deadline: in the whole recorded history of a
   * booking at most one of the two ever happened, and it happened at most once.
   */
  lemma ConfirmOrExpireOnce(fsm: set<Edge>, b: Booking, now: int, i: nat, j: nat)
    requires HistoryOk(fsm, b, now) && PendingIsEntry(fsm)
    requires i < |b.history| && b.history[i].status in {Confirmed, Expired}
    requires j < |b.history| && b.history[j].status in {Confirmed, Expired}
    ensures i == j == 1
  {
    var w := Statuses(b.history);
    if i > 1 {
      PendingNotReentered(fsm, w, i - 1);
    }
    if j > 1 {
      PendingNotReentered(fsm, w, j - 1);
    }
  }

  /** A walk that starts awaiting payment never comes back to it. */
  lemma {:induction false} PendingNotReentered(fsm: set<Edge>, w: seq<Status>, i: nat)
    requires Walk(fsm, w) && PendingIsEntry(fsm)
    requires 0 < i < |w| && w[0] == PendingPayment
    ensures w[i] != PendingPayment && w[i] != Draft
    decreases i
  {
    assert (w[i - 1], w[i]) in fsm;
    if i > 1 {
      PendingNotReentered(fsm, w, i - 1);
    }
  }

  /**
   * Of all the writes that ever start from one status of one booking, at most one
   * commits: under a whitelist without cycles, once the row has left a status a
   * compare-and-swap that expects it finds no row, at that moment and at any later one.
   */
  lemma StaleSwapFindsNoRow(
    fsm: set<Edge>, rank: Status -> int,
    bookings: seq<Booking>, bookings': seq<Booking>, blocks: seq<Block>,
    id: nat, from: Status, to: Status, now: int, now': int)
    requires Ranked(fsm, rank)
    requires id < |bookings| && BookingsGrow(bookings, bookings')
    requires BookingsOk(fsm, bookings, now) && BookingsOk(fsm, bookings', now')
    requires from in Statuses(bookings[id].history) && from != bookings[id].status
    ensures Transition(bookings', blocks, fsm, id, from, to, now') == NoRow
    ensures from == PendingPayment ==> ConfirmHold(bookings', blocks, fsm, id, now') == NoRow
    ensures from == PendingPayment ==> ExpireIfLapsed(bookings', blocks, fsm, id, now') == NoRow
  {
    var w, w' := Statuses(bookings[id].history), Statuses(bookings'[id].history);
    assert w <= w' by {
      forall k | 0 <= k < |w| ensures w[k] == w'[k] {
        assert bookings[id].history[k] == bookings'[id].history[k];
      }
    }
    var i :| 0 <= i < |w| && w[i] == from;
    assert i < |w| - 1;
    WalkRanksGrow(fsm, rank, w', i, |w'| - 1);
    assert w'[i] != w'[|w'| - 1];
  }

  // ---- occupancy in plain instants ----

  /** A booking that holds inventory is in the way of a stay: either starts before the other, with its minutes of turnaround, is over. */
  predicate InTheWay(b: Booking, unit: nat, checkIn: int, checkOut: int, turnaroundMinutes: int) {
    && b.unit == unit && b.status in {PendingPayment, Confirmed, CheckedIn}
    && b.checkIn < checkOut + 60_000 * turnaroundMinutes && checkIn < b.checkOut + 60_000 * b.turnaroundMinutes
  }

  /** So is a host block, while it is active; it has no turnaround. */
  predicate BlockInTheWay(block: Block, unit: nat, checkIn: int, checkOut: int, turnaroundMinutes: int) {
    && block.unit == unit && block.active && block.lo < block.hi
    && block.lo < checkOut + 60_000 * turnaroundMinutes && checkIn < block.hi
  }

  ghost predicate Vacant(bookings: seq<Booking>, blocks: seq<Block>, unit: nat, checkIn: int, checkOut: int, turnaroundMinutes: int) {
    && (forall i :: 0 <= i < |bookings| ==> !InTheWay(bookings[i], unit, checkIn, checkOut, turnaroundMinutes))
    && (forall k :: 0 <= k < |blocks| ==> !BlockInTheWay(blocks[k], unit, checkIn, checkOut, turnaroundMinutes))
  }

  /** Every row ends after it begins, and its turnaround takes no time away. */
  ghost predicate RangesOk(bookings: seq<Booking>) {
    forall i :: 0 <= i < |bookings| ==> bookings[i].checkIn < bookings[i].checkOut && 0 <= bookings[i].turnaroundMinutes
  }

  /** The availability query and the exclusion constraint, in instants. */
  lemma NoConflictIffVacant(bookings: seq<Booking>, blocks: seq<Block>, unit: nat, checkIn: int, checkOut: int, turnaroundMinutes: int)
    requires RangesOk(bookings) && checkIn < checkOut && 0 <= turnaroundMinutes
    ensures !HasConflict(bookings, blocks, unit, checkIn, checkOut, turnaroundMinutes)
            <==> Vacant(bookings, blocks, unit, checkIn, checkOut, turnaroundMinutes)
  {
    var hi := BlockEnd(checkOut, turnaroundMinutes);
    forall i | 0 <= i < |bookings|
      ensures RowBlocks(bookings[i], unit, checkIn, hi) <==> InTheWay(bookings[i], unit, checkIn, checkOut, turnaroundMinutes)
    {
    }
    forall k | 0 <= k < |blocks|
      ensures BlockInTheWay(blocks[k], unit, checkIn, checkOut, turnaroundMinutes)
              <==> blocks[k].unit == unit && blocks[k].active && Overlaps(blocks[k].lo, blocks[k].hi, checkIn, hi)
    {
    }
  }

  /** A hold is inserted exactly when its window and its money meet the table's CHECKs and nothing is in its way. */
  lemma InsertHoldIff(bookings: seq<Booking>, blocks: seq<Block>, row: Booking, now: int)
    requires RangesOk(bookings)
    ensures
      var m := row.money;
      InsertHold(bookings, blocks, row, now).Wrote? <==>
        && row.checkIn < row.checkOut && 0 <= row.turnaroundMinutes <= 240
        && m.base >= 0 && m.cleaning >= 0 && m.service >= 0 && m.taxes >= 0 && m.discount >= 0 && m.total >= 0
        && m.commission >= 0 && m.hostPayout >= 0 && 0 <= m.commissionPct <= 10_000
        && m.total == m.base + m.cleaning + m.service + m.taxes - m.discount && m.commission + m.hostPayout == m.base - m.discount
        && Vacant(bookings, blocks, row.unit, row.checkIn, row.checkOut, row.turnaroundMinutes)
  {
    if InsertChecks(row) {
      NoConflictIffVacant(bookings, blocks, row.unit, row.checkIn, row.checkOut, row.turnaroundMinutes);
    }
  }

  /** A stay that starts inside another's turnaround is refused, and one that starts at its end is not. */
  lemma TurnaroundIsExact(other: Booking, row: Booking, blocks: seq<Block>, now: int)
    requires other.unit == row.unit && other.status in {PendingPayment, Confirmed, CheckedIn}
    requires InsertChecks(other) && InsertChecks(row) && other.checkOut <= row.checkIn
    requires forall k :: 0 <= k < |blocks| ==> !blocks[k].active
    ensures InsertHold([other], blocks, row, now).Wrote? <==> other.checkOut + 60_000 * other.turnaroundMinutes <= row.checkIn
  {
    InsertHoldIff([other], blocks, row, now);
    assert [other][0] == other;
  }

  /** A host block over a stay refuses it exactly while the block is active. */
  lemma BlockRefusesIffActive(block: Block, row: Booking, now: int)
    requires InsertChecks(row) && block.unit == row.unit
    requires block.lo < block.hi && block.lo < row.checkOut && row.checkIn < block.hi
    ensures InsertHold([], [block], row, now).Wrote? <==> !block.active
  {
    InsertHoldIff([], [block], row, now);
    assert [block][0] == block;
  }

  /** Of two bookings of one unit that hold inventory, one checks in no earlier than the other's turnaround has passed. */
  lemma StaysApart(bookings: seq<Booking>, a: nat, b: nat)
    requires NoDoubleBooking(bookings) && RangesOk(bookings) && a < |bookings| && b < |bookings| && a != b
    requires bookings[a].unit == bookings[b].unit
    requires bookings[a].status in {PendingPayment, Confirmed, CheckedIn} && bookings[b].status in {PendingPayment, Confirmed, CheckedIn}
    ensures
      || bookings[a].checkOut + 60_000 * bookings[a].turnaroundMinutes <= bookings[b].checkIn
      || bookings[b].checkOut + 60_000 * bookings[b].turnaroundMinutes <= bookings[a].checkIn
  {
    assert !RowBlocks(bookings[a], bookings[b].unit, bookings[b].checkIn, BlockEnd(bookings[b].checkOut, bookings[b].turnaroundMinutes));
  }

  /** Where the new status holds inventory, no host block is in the way of the stay, and the range is the booking's own or free. */
  predicate Admits(bookings: seq<Booking>, blocks: seq<Block>, id: nat, from: Status, to: Status)
    requires id < |bookings|
  {
    var b := bookings[id];
    to in {PendingPayment, Confirmed, CheckedIn} ==>
      && (forall k :: 0 <= k < |blocks| ==> !BlockInTheWay(blocks[k], b.unit, b.checkIn, b.checkOut, b.turnaroundMinutes))
      && (from in {PendingPayment, Confirmed, CheckedIn}
          || forall i :: 0 <= i < |bookings| && i != id ==> !InTheWay(bookings[i], b.unit, b.checkIn, b.checkOut, b.turnaroundMinutes))
  }

  /** The row after a move: its status, and one more stamp. */
  function Stamped(b: Booking, to: Status, now: int): Booking {
    b.(status := to, history := b.history + [Stamp(to, now)])
  }

  /** A compare-and-swap finds no row exactly when the status moved on, and writes one row exactly when the move is allowed and admitted. */
  lemma SwapIff(bookings: seq<Booking>, blocks: seq<Block>, fsm: set<Edge>, id: nat, from: Status, to: Status, now: int)
    requires NoDoubleBooking(bookings) && RangesOk(bookings)
    ensures
      var r := Transition(bookings, blocks, fsm, id, from, to, now);
      && (r.NoRow? <==> id >= |bookings| || bookings[id].status != from)
      && (r.Wrote? <==>
            id < |bookings| && bookings[id].status == from && (from == to || (from, to) in fsm) && Admits(bookings, blocks, id, from, to))
      && (r.Wrote? ==> r.value == if from == to then bookings else bookings[id := Stamped(bookings[id], to, now)])
  {
    if id < |bookings| && bookings[id].status == from && to in {PendingPayment, Confirmed, CheckedIn} {
      NoOtherInTheWay(bookings, blocks, id);
    }
  }

  /** The constraint and the block trigger, for one row of the table, in instants. */
  lemma NoOtherInTheWay(bookings: seq<Booking>, blocks: seq<Block>, id: nat)
    requires NoDoubleBooking(bookings) && RangesOk(bookings) && id < |bookings|
    ensures
      var b := bookings[id];
      var hi := BlockEnd(b.checkOut, b.turnaroundMinutes);
      && (HostBlocked(blocks, b.unit, b.checkIn, hi) <==>
            exists k :: 0 <= k < |blocks| && BlockInTheWay(blocks[k], b.unit, b.checkIn, b.checkOut, b.turnaroundMinutes))
      && (OtherRowBlocks(bookings, id, b.unit, b.checkIn, hi) <==>
            exists i :: 0 <= i < |bookings| && i != id && InTheWay(bookings[i], b.unit, b.checkIn, b.checkOut, b.turnaroundMinutes))
      && (b.status in {PendingPayment, Confirmed, CheckedIn} ==> !OtherRowBlocks(bookings, id, b.unit, b.checkIn, hi))
  {
    var b := bookings[id];
    var hi := BlockEnd(b.checkOut, b.turnaroundMinutes);
    forall i | 0 <= i < |bookings|
      ensures RowBlocks(bookings[i], b.unit, b.checkIn, hi) <==> InTheWay(bookings[i], b.unit, b.checkIn, b.checkOut, b.turnaroundMinutes)
    {
    }
    forall k | 0 <= k < |blocks|
      ensures BlockInTheWay(blocks[k], b.unit, b.checkIn, b.checkOut, b.turnaroundMinutes)
              <==> blocks[k].unit == b.unit && blocks[k].active && Overlaps(blocks[k].lo, blocks[k].hi, b.checkIn, hi)
    {
    }
  }

  /** The confirmation of a hold: only while it is pending and before its deadline; then as any other move. */
  lemma ConfirmIff(bookings: seq<Booking>, blocks: seq<Block>, fsm: set<Edge>, id: nat, now: int)
    requires NoDoubleBooking(bookings) && RangesOk(bookings)
    ensures
      var r := ConfirmHold(bookings, blocks, fsm, id, now);
      && (r.NoRow? <==> id >= |bookings| || bookings[id].status != PendingPayment || bookings[id].holdExpiresAt <= now)
      && (r.Wrote? <==>
            && id < |bookings| && bookings[id].status == PendingPayment && now < bookings[id].holdExpiresAt
            && (PendingPayment, Confirmed) in fsm && Admits(bookings, blocks, id, PendingPayment, Confirmed))
      && (r.Wrote? ==> r.value == bookings[id := Stamped(bookings[id], Confirmed, now)])
  {
    SwapIff(bookings, blocks, fsm, id, PendingPayment, Confirmed, now);
  }

  /** The expiry of a hold: only while it is pending and not before its deadline; nothing is in the way of it. */
  lemma ExpireIff(bookings: seq<Booking>, blocks: seq<Block>, fsm: set<Edge>, id: nat, now: int)
    ensures
      var r := ExpireIfLapsed(bookings, blocks, fsm, id, now);
      && (r.NoRow? <==> id >= |bookings| || bookings[id].status != PendingPayment || now < bookings[id].holdExpiresAt)
      && (r.Wrote? <==>
            && id < |bookings| && bookings[id].status == PendingPayment && bookings[id].holdExpiresAt <= now
            && (PendingPayment, Expired) in fsm)
      && (r.Wrote? ==> r.value == bookings[id := Stamped(bookings[id], Expired, now)])
  {
  }
}
