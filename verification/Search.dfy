/**
 * The second stage of search: hits from the index, cut down to the units that the
 * booking guard would let through for the stay.
 */
module Search {
  import opened Common
  import opened Bookings

  datatype Item = Item(unit: nat, details: string, available: Option<bool>)

  datatype Stay = Stay(checkIn: int, checkOut: int)

  /** The tables that the availability query reads; a unit maps to its own turnaround buffer. */
  datatype Inventory = Inventory(units: map<nat, int>, bookings: seq<Booking>, blocks: seq<Block>)

  /** The ids, among those asked for, of existing units that are free for the stay. */
  function FilterAvailable(inventory: Inventory, unitIds: seq<nat>, stay: Stay): set<nat> {
    set id | id in unitIds && IsFree(inventory, id, stay)
  }

  predicate IsFree(inventory: Inventory, unit: nat, stay: Stay) {
    && unit in inventory.units
    && !HasConflict(inventory.bookings, inventory.blocks, unit, stay.checkIn, stay.checkOut, inventory.units[unit])
  }

  function UnitIds(items: seq<Item>): (ids: seq<nat>)
    ensures |ids| == |items| && forall i :: 0 <= i < |ids| ==> ids[i] == items[i].unit
  {
    seq(|items|, i requires 0 <= i < |items| => items[i].unit)
  }

  /** Mark every item by the ids, then keep the available ones. */
  function Keep(items: seq<Item>, ids: set<nat>): seq<Item> {
    if items == [] then []
    else
      var last := items[|items| - 1];
      var marked := last.(available := Some(last.unit in ids));
      Keep(items[..|items| - 1], ids) + if marked.available == Some(true) then [marked] else []
  }

  /** Strictly ascending positions of a sequence of length n. */
  predicate Ascending(at: seq<nat>, n: nat) {
    && (forall k :: 0 <= k < |at| ==> at[k] < n)
    && forall k, l :: 0 <= k < l < |at| ==> at[k] < at[l]
  }

  /** What is kept is a sublist in the original order, and it takes exactly the items whose id is available. */
  lemma {:induction false} KeepIsTheSublist(items: seq<Item>, ids: set<nat>) returns (at: seq<nat>)
    ensures Ascending(at, |items|) && |at| == |Keep(items, ids)|
    ensures forall k :: 0 <= k < |at| ==> Keep(items, ids)[k] == items[at[k]].(available := Some(true))
    ensures forall i: nat :: i < |items| ==> (i in at <==> items[i].unit in ids)
    decreases |items|
  {
    if items == [] {
      at := [];
    } else {
      var n := |items| - 1;
      var init := KeepIsTheSublist(items[..n], ids);
      at := init + if items[n].unit in ids then [n] else [];
      AppendedPositions(items, ids, init);
    }
  }

  lemma AppendedPositions(items: seq<Item>, ids: set<nat>, init: seq<nat>)
    requires |items| > 0 && Ascending(init, |items| - 1)
    requires forall i: nat :: i < |items| - 1 ==> (i in init <==> items[..|items| - 1][i].unit in ids)
    ensures
      var n := |items| - 1;
      var at := init + if items[n].unit in ids then [n] else [];
      forall i: nat :: i < |items| ==> (i in at <==> items[i].unit in ids)
  {
    forall i: nat | i < |items| - 1 ensures i in init <==> items[i].unit in ids {
      assert items[..|items| - 1][i] == items[i];
    }
  }

  /** The stage-two result lists a hit exactly when its unit exists and has no conflict for the stay. */
  lemma ListedIffFree(inventory: Inventory, hits: seq<Item>, stay: Stay, i: nat) returns (at: seq<nat>)
    requires i < |hits|
    ensures
      var items := Keep(hits, FilterAvailable(inventory, UnitIds(hits), stay));
      && Ascending(at, |hits|) && |at| == |items|
      && (forall k :: 0 <= k < |at| ==> items[k] == hits[at[k]].(available := Some(true)))
      && (i in at <==> IsFree(inventory, hits[i].unit, stay))
  {
    at := KeepIsTheSublist(hits, FilterAvailable(inventory, UnitIds(hits), stay));
    assert UnitIds(hits)[i] == hits[i].unit;
  }

  /** In instants: no booking that holds inventory and no active host block is in the way of the stay with the unit's own buffer. */
  lemma ListedIffVacant(inventory: Inventory, hits: seq<Item>, stay: Stay, i: nat) returns (at: seq<nat>)
    requires i < |hits| && RangesOk(inventory.bookings) && stay.checkIn < stay.checkOut
    requires hits[i].unit in inventory.units ==> inventory.units[hits[i].unit] >= 0
    ensures
      var items := Keep(hits, FilterAvailable(inventory, UnitIds(hits), stay));
      && Ascending(at, |hits|) && |at| == |items|
      && (forall k :: 0 <= k < |at| ==> items[k] == hits[at[k]].(available := Some(true)))
      && (i in at <==>
            hits[i].unit in inventory.units
            && Vacant(inventory.bookings, inventory.blocks, hits[i].unit, stay.checkIn, stay.checkOut, inventory.units[hits[i].unit]))
  {
    at := ListedIffFree(inventory, hits, stay, i);
    if hits[i].unit in inventory.units {
      NoConflictIffVacant(inventory.bookings, inventory.blocks, hits[i].unit, stay.checkIn, stay.checkOut, inventory.units[hits[i].unit]);
    }
  }

  /**
   * Search agrees with the booking guard: of the rows that pass their own checks, a hold
   * on a hit's unit for the searched stay is inserted exactly when search lists the hit.
   */
  lemma ListedIffBookable(inventory: Inventory, hits: seq<Item>, stay: Stay, i: nat, row: Booking, now: int) returns (at: seq<nat>)
    requires i < |hits| && row.unit == hits[i].unit && row.unit in inventory.units
    requires row.checkIn == stay.checkIn && row.checkOut == stay.checkOut && row.turnaroundMinutes == inventory.units[row.unit]
    requires InsertChecks(row)
    ensures
      var items := Keep(hits, FilterAvailable(inventory, UnitIds(hits), stay));
      Ascending(at, |hits|) && |at| == |items| && forall k :: 0 <= k < |at| ==> items[k] == hits[at[k]].(available := Some(true))
    ensures InsertHold(inventory.bookings, inventory.blocks, row, now).Wrote? <==> i in at
  {
    at := ListedIffFree(inventory, hits, stay, i);
  }

  /**
   * Stage two of `search`. Without a stay or without hits nothing is checked and the
   * hits are the items. Otherwise the items are the hits at the positions `at`, in the
   * original order and marked available, and those are exactly the positions whose unit
   * exists and has no conflict for the stay with its own buffer.
   */
  method Search(inventory: Inventory, hits: seq<Item>, stay: Option<Stay>)
    returns (items: seq<Item>, availabilityChecked: bool, ghost at: seq<nat>)
    ensures availabilityChecked <==> stay.Some? && hits != []
    ensures !availabilityChecked ==> items == hits
    ensures availabilityChecked ==>
      && Ascending(at, |hits|) && |at| == |items|
      && (forall k :: 0 <= k < |at| ==> items[k] == hits[at[k]].(available := Some(true)))
      && forall i: nat :: i < |hits| ==> (i in at <==> IsFree(inventory, hits[i].unit, stay.value))
  {
    items, availabilityChecked, at := hits, false, [];
    if stay.Some? && |items| > 0 {
      var availableIds := FilterAvailable(inventory, UnitIds(items), stay.value);
      items := Keep(items, availableIds);
      availabilityChecked := true;
      at := KeepIsTheSublist(hits, availableIds);
      assert forall i :: 0 <= i < |hits| ==> UnitIds(hits)[i] == hits[i].unit;
    }
  }
}
