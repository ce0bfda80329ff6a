/**
 The input form of the flat price predictor: the bounds of every widget, the
 bounds and defaults that depend on other widgets, and the predicate saying
 which form states the widgets can hold.
 */
module Form {

  // Widget bounds (minimum and maximum of each number input or slider).
  const KitchenMin := 7
  const KitchenMax := 26
  const BathMin := 7
  const BathMax := 36
  const OtherMin := 12.0
  const OtherMax := 91.0
  const DisplayCountMin := 1
  const DisplayCountMax := 3
  const ExtraMin := 0
  const ExtraMax := 20
  const RoomsMin := 0
  const YearMin := 1900
  const YearMax := 2020
  const CeilMin := 2.5
  const CeilMax := 5.0
  const FloorMaxMin := 1
  const FloorMaxMax := 23
  const FloorMin := 1

  /** The floor the apartment floor slider defaults to before it is clamped to floor_max. */
  const PreferredFloor := 6

  /** The options of the "Extra Type" radio, in display order. */
  const ExtraTypeOptions: seq<string> := ["Balcony", "Loggia"]

  /** The options of the "District" select box, in display order. */
  const Districts: seq<string> :=
    ["Centralnyj", "Petrogradskij", "Moskovskij", "Nevskij",
     "Kirovskij", "Krasnoselskij", "Vyborgskij"]

  const DefaultDistrictIndex := 2

  /** What the widgets hold on one run of the script. */
  datatype FormState = FormState(
    kitchenArea: int,
    bathArea: int,
    otherArea: real,
    displayCount: int,
    extraArea: int,
    extraType: string,
    roomsCount: int,
    year: int,
    ceilHeight: real,
    floorMax: int,
    floor: int,
    gas: bool,
    hotWater: bool,
    centralHeating: bool,
    district: string)

  function Max(a: int, b: int): int { if a >= b then a else b }

  function Min(a: int, b: int): int { if a <= b then a else b }

  /** Upper bound of the "Number of Other Rooms" slider: max(1, int(other_area // 10)). */
  function MaxRoomsAllowed(otherArea: real): (m: int)
    ensures 1 <= m
    ensures otherArea < 20.0 ==> m == 1
    ensures otherArea >= 10.0 ==> m as real * 10.0 <= otherArea < (m + 1) as real * 10.0
  {
    Max(1, (otherArea / 10.0).Floor)
  }

  /** Default of the rooms slider, min(1, max_rooms_allowed). */
  function DefaultRooms(otherArea: real): (r: int)
    ensures RoomsMin <= r <= MaxRoomsAllowed(otherArea)
    ensures r == 1
  {
    Min(1, MaxRoomsAllowed(otherArea))
  }

  /** Default of the apartment floor slider, min(6, floor_max). */
  function DefaultFloor(floorMax: int): (f: int)
    ensures f <= floorMax && f <= PreferredFloor
    ensures f == PreferredFloor || f == floorMax
    ensures FloorMin <= floorMax ==> FloorMin <= f
  {
    Min(PreferredFloor, floorMax)
  }

  /** The model's extra_area_count: the "Number of Extras" slider shifted down by one. */
  function ExtraAreaCount(displayCount: int): (c: int)
    ensures DisplayCountMin <= displayCount <= DisplayCountMax <==> 0 <= c <= 2
    ensures c < displayCount
  {
    displayCount - 1
  }

  /** The form states the bounded widgets can hold. */
  predicate ValidForm(f: FormState): (ok: bool)
    ensures ok ==> f.roomsCount <= 9 && f.floor <= FloorMaxMax
  {
    && KitchenMin <= f.kitchenArea <= KitchenMax
    && BathMin <= f.bathArea <= BathMax
    && OtherMin <= f.otherArea <= OtherMax
    && DisplayCountMin <= f.displayCount <= DisplayCountMax
    && ExtraMin <= f.extraArea <= ExtraMax
    && f.extraType in ExtraTypeOptions
    && RoomsMin <= f.roomsCount <= MaxRoomsAllowed(f.otherArea)
    && YearMin <= f.year <= YearMax
    && CeilMin <= f.ceilHeight <= CeilMax
    && FloorMaxMin <= f.floorMax <= FloorMaxMax
    && FloorMin <= f.floor <= f.floorMax
    && f.district in Districts
  }

  /** The form as first rendered: every widget at its declared default. */
  function DefaultForm(): (f: FormState)
    ensures ValidForm(f)
    ensures f.roomsCount == 1 && f.floor == 6 && f.district == "Moskovskij"
  {
    FormState(
      kitchenArea := 15,
      bathArea := 20,
      otherArea := 30.0,
      displayCount := 1,
      extraArea := 5,
      extraType := ExtraTypeOptions[0],
      roomsCount := DefaultRooms(30.0),
      year := 1980,
      ceilHeight := 2.70,
      floorMax := 14,
      floor := DefaultFloor(14),
      gas := true,
      hotWater := true,
      centralHeating := true,
      district := Districts[DefaultDistrictIndex])
  }

  /** For the Other Area input between its bounds, the rooms slider reaches 1 to 9. */
  lemma MaxRoomsInRange(otherArea: real)
    requires OtherMin <= otherArea <= OtherMax
    ensures 1 <= MaxRoomsAllowed(otherArea) <= 9
  {
  }

  /** The rooms bound only grows with the Other Area. */
  lemma MaxRoomsMonotone(a: real, b: real)
    requires a <= b
    ensures MaxRoomsAllowed(a) <= MaxRoomsAllowed(b)
  {
  }

  /**
   On the input's 0.5 grid, with other_area = h / 2, the rooms bound is
   max(1, h div 20) in integer arithmetic.
   */
  lemma MaxRoomsOnHalfMetreGrid(h: int)
    ensures MaxRoomsAllowed(h as real / 2.0) == Max(1, h / 20)
  {
  }

  /** The default floor is a value the floor slider accepts for every building height. */
  lemma DefaultFloorInSlider(floorMax: int)
    requires FloorMaxMin <= floorMax <= FloorMaxMax
    ensures FloorMin <= DefaultFloor(floorMax) <= floorMax
  {
  }
}
