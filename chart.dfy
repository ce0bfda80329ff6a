/**
 The data behind the "Area Composition" bar: the four areas in a fixed room
 order, with every non-positive size filtered out.
 */
module Chart {
  import opened Form

  datatype Room = Kitchen | Bathroom | Other | Extra

  /** The fixed category order of the chart. */
  const RoomOrder: seq<Room> := [Kitchen, Bathroom, Other, Extra]

  /** Position of a room in the fixed order. */
  function Rank(room: Room): (k: nat)
    ensures k < |RoomOrder| && RoomOrder[k] == room
  {
    match room
    case Kitchen => 0
    case Bathroom => 1
    case Other => 2
    case Extra => 3
  }

  /** The category labels of the chart, in the fixed order. */
  const RoomLabels: seq<string> := ["Kitchen", "Bathroom", "Other", "Extra"]

  /** The category label shown in the legend and tooltip. */
  function Label(room: Room): string {
    match room
    case Kitchen => "Kitchen"
    case Bathroom => "Bathroom"
    case Other => "Other"
    case Extra => "Extra"
  }

  /** The labels follow the fixed room order, and no two rooms share one. */
  lemma LabelsFollowRoomOrder()
    ensures |RoomLabels| == |RoomOrder|
    ensures forall i :: 0 <= i < |RoomOrder| ==> Label(RoomOrder[i]) == RoomLabels[i]
    ensures forall a: Room, b: Room :: Label(a) == Label(b) ==> a == b
  {
  }

  /** One row of the chart's data frame. */
  datatype Bar = Bar(room: Room, size: real)

  /** Rows appear in strictly increasing room order. */
  predicate InRoomOrder(rows: seq<Bar>) {
    forall i, j :: 0 <= i < j < |rows| ==> Rank(rows[i].room) < Rank(rows[j].room)
  }

  /** The size the chart shows for a room: that room's area input. */
  function AreaOf(room: Room, kitchenArea: int, bathArea: int, otherArea: real, extraArea: int): real {
    match room
    case Kitchen => kitchenArea as real
    case Bathroom => bathArea as real
    case Other => otherArea
    case Extra => extraArea as real
  }

  /** The frame before filtering: one row per room, in the fixed order, each carrying that room's area. */
  function LayoutRows(kitchenArea: int, bathArea: int, otherArea: real, extraArea: int): (rows: seq<Bar>)
    ensures |rows| == |RoomOrder|
    ensures forall i :: 0 <= i < |rows| ==> rows[i].room == RoomOrder[i]
    ensures forall i :: 0 <= i < |rows| ==>
              rows[i].size == AreaOf(rows[i].room, kitchenArea, bathArea, otherArea, extraArea)
    ensures InRoomOrder(rows)
  {
    [Bar(Kitchen, kitchenArea as real), Bar(Bathroom, bathArea as real),
     Bar(Other, otherArea), Bar(Extra, extraArea as real)]
  }

  /** The mask Size > 0: keeps exactly the positive rows and does not reorder them. */
  function KeepPositive(rows: seq<Bar>): (kept: seq<Bar>)
    ensures forall b :: b in kept <==> b in rows && b.size > 0.0
    ensures |kept| <= |rows|
    ensures InRoomOrder(rows) ==> InRoomOrder(kept)
  {
    if rows == [] then []
    else if rows[0].size > 0.0 then [rows[0]] + KeepPositive(rows[1..])
    else KeepPositive(rows[1..])
  }

  /** The chart's data: the layout rows after the mask. */
  function ChartData(kitchenArea: int, bathArea: int, otherArea: real, extraArea: int): (rows: seq<Bar>)
    ensures InRoomOrder(rows)
    ensures forall b :: b in rows <==>
              b in LayoutRows(kitchenArea, bathArea, otherArea, extraArea) && b.size > 0.0
  {
    KeepPositive(LayoutRows(kitchenArea, bathArea, otherArea, extraArea))
  }

  /** A frame whose rows are all positive passes the mask unchanged. */
  lemma {:induction false} KeepPositiveAllPositive(rows: seq<Bar>)
    requires forall i :: 0 <= i < |rows| ==> rows[i].size > 0.0
    ensures KeepPositive(rows) == rows
  {
    if rows != [] {
      KeepPositiveAllPositive(rows[1..]);
    }
  }

  /** The mask works row by row, so it distributes over concatenation. */
  lemma {:induction false} KeepPositiveConcat(a: seq<Bar>, b: seq<Bar>)
    ensures KeepPositive(a + b) == KeepPositive(a) + KeepPositive(b)
  {
    if a != [] {
      assert (a + b)[1..] == a[1..] + b;
      KeepPositiveConcat(a[1..], b);
    } else {
      assert a + b == b;
    }
  }

  /**
   Under the widget minimums only the Extra row can be dropped, and it is
   dropped exactly when the extra area is 0.
   */
  lemma ChartDropsOnlyZeroExtra(kitchenArea: int, bathArea: int, otherArea: real, extraArea: int)
    requires KitchenMin <= kitchenArea && BathMin <= bathArea && OtherMin <= otherArea
    requires ExtraMin <= extraArea
    ensures extraArea > 0 ==> ChartData(kitchenArea, bathArea, otherArea, extraArea)
                              == LayoutRows(kitchenArea, bathArea, otherArea, extraArea)
    ensures extraArea == 0 ==> ChartData(kitchenArea, bathArea, otherArea, extraArea)
                               == LayoutRows(kitchenArea, bathArea, otherArea, extraArea)[..3]
  {
    var rows := LayoutRows(kitchenArea, bathArea, otherArea, extraArea);
    if extraArea > 0 {
      KeepPositiveAllPositive(rows);
    } else {
      assert KeepPositive(rows[3..]) == [] by {
        assert rows[3..][1..] == [];
      }
      KeepPositiveAllPositive(rows[..3]);
      KeepPositiveConcat(rows[..3], rows[3..]);
      assert rows[..3] + rows[3..] == rows;
    }
  }
}
