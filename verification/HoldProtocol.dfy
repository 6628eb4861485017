/**
 * Placing a hold: the per-unit lock around a transaction that checks availability,
 * claims a flash deal and inserts the booking. Each statement is one step; steps of
 * different requests interleave freely, a request may vanish at any point, and a
 * lock may lapse while its holder is still inside. A request's number is its lock
 * token. The insert, being the last statement, is one step with the COMMIT.
 */
module HoldProtocol {
  import opened Common
  import opened BookingFsm
  import opened Bookings
  import RedisLock

  const UNIT_LOCK_TTL_MS: nat := 5000

  // ---- flash deals ----

  datatype DealStatus = Scheduled | Active | SoldOut | Ended | Cancelled

  /** The discount is in hundredths of a percent. */
  datatype Deal = Deal(
    unit: nat, status: DealStatus, discountPct: int, startsAt: int, endsAt: int, total: int, claimed: int)

  /** The claim UPDATE's own guard; the claim window is not part of it. */
  predicate Claimable(deal: Deal) {
    deal.status == Active && deal.claimed < deal.total
  }

  /** One slot taken, with the trigger that flips the status on the last one. */
  function Claimed(deal: Deal): Deal {
    var claimed := deal.claimed + 1;
    deal.(claimed := claimed, status := if claimed == deal.total && deal.status == Active then SoldOut else deal.status)
  }

  function Activated(deal: Deal, now: int): Deal {
    if deal.status == Scheduled && deal.startsAt <= now < deal.endsAt then deal.(status := Active) else deal
  }

  function Closed(deal: Deal, now: int): Deal {
    if deal.status in {Scheduled, Active} && now >= deal.endsAt then deal.(status := Ended) else deal
  }

  /** The service's checks on a new deal. */
  predicate DealChecks(deal: Deal) {
    && deal.endsAt > deal.startsAt
    && deal.endsAt - deal.startsAt <= 72 * 3600000
    && 500 <= deal.discountPct <= 9000
    && deal.total >= 1
  }

  predicate Open(deal: Deal) {
    deal.status in {Scheduled, Active}
  }

  /** What the exclusion constraint forbids: two open deals of one unit whose claim windows share an instant. */
  predicate Clash(deal: Deal, deal': Deal) {
    && deal.unit == deal'.unit && Open(deal) && Open(deal')
    && Overlaps(deal.startsAt, deal.endsAt, deal'.startsAt, deal'.endsAt)
  }

  /** The row that a new deal becomes: ACTIVE if by the application's clock its window has opened, with nothing claimed. */
  function FreshDeal(deal: Deal, appNow: int): Deal {
    deal.(status := if deal.startsAt <= appNow then Active else Scheduled, claimed := 0)
  }

  predicate ClashesWithAny(deals: seq<Deal>, deal: Deal) {
    exists d :: 0 <= d < |deals| && Clash(deals[d], deal)
  }

  // ---- the machine ----

  datatype Outcome = Placed(id: nat) | UnitUnavailable | DealSoldOut | InsertRejected

  datatype Phase =
    | Acquiring
    | InSection
    | Checked
    | DealClaimed
    | Leaving(outcome: Outcome)
    | Gone

  datatype Request = Request(row: Booking, phase: Phase, acquiredAt: int)

  /** `rowLocks` are the deal rows that an open transaction has updated. */
  datatype State = State(
    bookings: seq<Booking>, blocks: seq<Block>, deals: seq<Deal>, rowLocks: map<nat, nat>,
    store: RedisLock.Store, requests: seq<Request>, now: int)

  datatype Step =
    | Tick(elapsed: nat)
    | Arrive(row: Booking)
    | Acquire(w: nat)
    | GiveUp(w: nat)
    | Check(w: nat)
    | ClaimDeal(w: nat)
    | Commit(w: nat)
    | Release(w: nat)
    | Crash(w: nat)
    | Move(b: nat, to: Status)
    | SetBlocks(blocks: seq<Block>)
    | CreateDeal(deal: Deal, appNow: int)
    | ActivateDue(d: nat)
    | EndExpired(d: nat)

  function Init(now: int): State {
    State([], [], [], map[], RedisLock.Store(map[], map[]), [], now)
  }

  predicate At(s: State, w: nat, phase: Phase) {
    w < |s.requests| && s.requests[w].phase == phase
  }

  predicate InLock(s: State, w: nat) {
    w < |s.requests| && s.requests[w].phase in {InSection, Checked, DealClaimed}
  }

  function Goto(s: State, w: nat, phase: Phase): State
    requires w < |s.requests|
  {
    s.(requests := s.requests[w := s.requests[w].(phase := phase)])
  }

  /** The deal row locks of a request that ends its transaction are gone. */
  function Unlocked(rowLocks: map<nat, nat>, w: nat): map<nat, nat> {
    map d | d in rowLocks && rowLocks[d] != w :: rowLocks[d]
  }

  function NextRequest(s: State, step: Step): Option<State>
    requires step.Arrive? || step.Acquire? || step.GiveUp? || step.Check? || step.ClaimDeal? || step.Release? || step.Crash?
  {
    match step
    case Arrive(row) => Some(s.(requests := s.requests + [Request(row, Acquiring, s.now)]))
    case Acquire(w) =>
      if !At(s, w, Acquiring) then None
      else
        var ok := RedisLock.SetNx(s.store, s.requests[w].row.unit, w, UNIT_LOCK_TTL_MS, s.now);
        if ok.None? then None
        else Some(s.(store := ok.value, requests := s.requests[w := s.requests[w].(phase := InSection, acquiredAt := s.now)]))
    case GiveUp(w) =>
      if !At(s, w, Acquiring) then None else Some(Goto(s, w, Gone))
    case Check(w) =>
      if !At(s, w, InSection) then None
      else
        var row := s.requests[w].row;
        Some(Goto(s, w,
          if HasConflict(s.bookings, s.blocks, row.unit, row.checkIn, row.checkOut, row.turnaroundMinutes)
          then Leaving(UnitUnavailable) else Checked))
    case ClaimDeal(w) =>
      if !At(s, w, Checked) || s.requests[w].row.deal.None? then None
      else
        var d := s.requests[w].row.deal.value;
        if d in s.rowLocks then None
        else if d < |s.deals| && Claimable(s.deals[d]) then Some(Goto(s, w, DealClaimed).(rowLocks := s.rowLocks[d := w]))
        else Some(Goto(s, w, Leaving(DealSoldOut)))
    case Release(w) =>
      if w >= |s.requests| || !s.requests[w].phase.Leaving? then None
      else Some(Goto(s, w, Gone).(store := RedisLock.Released(s.store, s.requests[w].row.unit, w, s.now)))
    case Crash(w) =>
      if w >= |s.requests| then None
      else Some(Goto(s, w, Gone).(rowLocks := Unlocked(s.rowLocks, w)))
  }

  /** The request has run every statement before the insert. */
  predicate ReadyToInsert(s: State, w: nat) {
    At(s, w, DealClaimed) || (At(s, w, Checked) && s.requests[w].row.deal.None?)
  }

  function NextCommit(s: State, w: nat): Option<State> {
    if !ReadyToInsert(s, w) then None
    else
      var row := s.requests[w].row;
      var r := InsertHold(s.bookings, s.blocks, row, s.now);
      var rowLocks := Unlocked(s.rowLocks, w);
      if r.Wrote? then
        Some(Goto(s, w, Leaving(Placed(|s.bookings|))).(
          bookings := r.value,
          rowLocks := rowLocks,
          deals := if row.deal.Some? && row.deal.value < |s.deals|
                   then s.deals[row.deal.value := Claimed(s.deals[row.deal.value])] else s.deals))
      else Some(Goto(s, w, Leaving(InsertRejected)).(rowLocks := rowLocks))
  }

  function NextWorld(fsm: set<Edge>, s: State, step: Step): Option<State>
    requires step.Tick? || step.Move? || step.SetBlocks? || step.CreateDeal? || step.ActivateDue? || step.EndExpired?
  {
    match step
    case Tick(elapsed) => Some(s.(now := s.now + elapsed))
    case Move(b, to) =>
      if b >= |s.bookings| then None
      else
        var r := SetStatus(s.bookings, s.blocks, fsm, b, to, s.now);
        if r.Wrote? then Some(s.(bookings := r.value)) else None
    case SetBlocks(blocks) => Some(s.(blocks := blocks))
    case CreateDeal(deal, appNow) =>
      if !DealChecks(deal) || ClashesWithAny(s.deals, FreshDeal(deal, appNow)) then None
      else Some(s.(deals := s.deals + [FreshDeal(deal, appNow)]))
    case ActivateDue(d) =>
      if d >= |s.deals| || d in s.rowLocks then None
      else Some(s.(deals := s.deals[d := Activated(s.deals[d], s.now)]))
    case EndExpired(d) =>
      if d >= |s.deals| || d in s.rowLocks then None
      else Some(s.(deals := s.deals[d := Closed(s.deals[d], s.now)]))
  }

  function Next(fsm: set<Edge>, s: State, step: Step): Option<State> {
    if step.Commit? then NextCommit(s, step.w)
    else if step.Tick? || step.Move? || step.SetBlocks? || step.CreateDeal? || step.ActivateDue? || step.EndExpired?
    then NextWorld(fsm, s, step)
    else NextRequest(s, step)
  }

  ghost predicate Follows(fsm: set<Edge>, s: State, s': State) {
    exists step :: Next(fsm, s, step) == Some(s')
  }

  ghost predicate Run(fsm: set<Edge>, trace: seq<State>) {
    && |trace| > 0 && trace[0] == Init(trace[0].now)
    && forall i :: 0 <= i < |trace| - 1 ==> Follows(fsm, trace[i], trace[i + 1])
  }
}
