/**
 Derived features and the feature record handed to the price model: total
 area, bathroom count, the Yes/No encoding of the utility toggles, the
 lower-cased extra-area type, and the record built on submission.
 */
module Features {
  import opened Form

  /** Bathroom areas from this size up are laid out as two bathrooms. */
  const TwoBathroomArea := 16

  /**
   The record given to the model, one field per key of the input row; the
   keys are kitchen_area, bath_area, other_area, gas, hot_water,
   central_heating, extra_area, extra_area_count, year, ceil_height,
   floor_max, floor, total_area, bath_count, extra_area_type_name,
   district_name and rooms_count, in that order.
   */
  datatype FeatureRecord = FeatureRecord(
    kitchenArea: int,
    bathArea: int,
    otherArea: real,
    gas: string,
    hotWater: string,
    centralHeating: string,
    extraArea: int,
    extraAreaCount: int,
    year: int,
    ceilHeight: real,
    floorMax: int,
    floor: int,
    totalArea: real,
    bathCount: int,
    extraAreaTypeName: string,
    districtName: string,
    roomsCount: int)

  /** Total area, with balcony or loggia area counted at one third. */
  function TotalArea(kitchenArea: int, bathArea: int, otherArea: real, extraArea: int): (t: real)
    ensures t == (kitchenArea + bathArea) as real + otherArea + extraArea as real / 3.0
    ensures 0 <= extraArea ==>
              (kitchenArea + bathArea) as real + otherArea <= t <= (kitchenArea + bathArea + extraArea) as real + otherArea
  {
    kitchenArea as real + bathArea as real + otherArea + extraArea as real / 3.0
  }

  /** Number of bathrooms the model is told about. */
  function BathCount(bathArea: int): (n: int)
    ensures n == 2 <==> bathArea >= TwoBathroomArea
    ensures n == 1 <==> bathArea < TwoBathroomArea
  {
    if bathArea >= TwoBathroomArea then 2 else 1
  }

  /** Category encoding of a utility toggle. */
  function YesNo(on: bool): (s: string)
    ensures s == "Yes" <==> on
    ensures s == "No" <==> !on
  {
    if on then "Yes" else "No"
  }

  predicate IsUpper(c: char) { 'A' <= c <= 'Z' }

  /** Lower-casing of one character (ASCII letters only). */
  function LowerChar(c: char): (d: char)
    ensures !IsUpper(d)
    ensures d != c ==> IsUpper(c)
    ensures IsUpper(c) ==> d as int == c as int + 32
  {
    if IsUpper(c) then (c as int + 32) as char else c
  }

  /** Lower-casing of a string, character by character. */
  function Lower(s: string): (r: string)
    ensures |r| == |s|
    ensures forall i :: 0 <= i < |s| ==> r[i] == LowerChar(s[i])
  {
    if s == [] then [] else [LowerChar(s[0])] + Lower(s[1..])
  }

  /** The record built from the form on submission. */
  function BuildRecord(f: FormState): (r: FeatureRecord)
    ensures r.totalArea == TotalArea(f.kitchenArea, f.bathArea, f.otherArea, f.extraArea)
    ensures r.bathCount == BathCount(f.bathArea)
    ensures r.extraAreaCount == ExtraAreaCount(f.displayCount)
    ensures r.gas == YesNo(f.gas) && r.hotWater == YesNo(f.hotWater)
    ensures r.centralHeating == YesNo(f.centralHeating)
    ensures r.extraAreaTypeName == Lower(f.extraType)
    ensures r.kitchenArea == f.kitchenArea && r.bathArea == f.bathArea
    ensures r.otherArea == f.otherArea && r.extraArea == f.extraArea
    ensures r.year == f.year && r.ceilHeight == f.ceilHeight
    ensures r.floorMax == f.floorMax && r.floor == f.floor
    ensures r.districtName == f.district && r.roomsCount == f.roomsCount
  {
    FeatureRecord(
      kitchenArea := f.kitchenArea,
      bathArea := f.bathArea,
      otherArea := f.otherArea,
      gas := YesNo(f.gas),
      hotWater := YesNo(f.hotWater),
      centralHeating := YesNo(f.centralHeating),
      extraArea := f.extraArea,
      extraAreaCount := ExtraAreaCount(f.displayCount),
      year := f.year,
      ceilHeight := f.ceilHeight,
      floorMax := f.floorMax,
      floor := f.floor,
      totalArea := TotalArea(f.kitchenArea, f.bathArea, f.otherArea, f.extraArea),
      bathCount := BathCount(f.bathArea),
      extraAreaTypeName := Lower(f.extraType),
      districtName := f.district,
      roomsCount := f.roomsCount)
  }

  /** The category values the model was trained on for the extra-area type. */
  const ExtraTypeNames: seq<string> := ["balcony", "loggia"]

  /** What every record built from a reachable form satisfies. */
  predicate WellFormedRecord(r: FeatureRecord) {
    && KitchenMin <= r.kitchenArea <= KitchenMax
    && BathMin <= r.bathArea <= BathMax
    && OtherMin <= r.otherArea <= OtherMax
    && ExtraMin <= r.extraArea <= ExtraMax
    && 0 <= r.extraAreaCount <= 2
    && r.extraAreaTypeName in ExtraTypeNames
    && r.gas in ["Yes", "No"] && r.hotWater in ["Yes", "No"] && r.centralHeating in ["Yes", "No"]
    && RoomsMin <= r.roomsCount <= MaxRoomsAllowed(r.otherArea)
    && YearMin <= r.year <= YearMax
    && CeilMin <= r.ceilHeight <= CeilMax
    && FloorMaxMin <= r.floorMax <= FloorMaxMax
    && FloorMin <= r.floor <= r.floorMax
    && (r.bathCount == 2 <==> r.bathArea >= TwoBathroomArea)
    && (r.bathCount == 1 <==> r.bathArea < TwoBathroomArea)
    && r.districtName in Districts
    && r.totalArea >= 26.0
  }

  /** The two radio labels lower-case to the model's category names. */
  lemma LowerExtraTypes()
    ensures Lower(ExtraTypeOptions[0]) == ExtraTypeNames[0]
    ensures Lower(ExtraTypeOptions[1]) == ExtraTypeNames[1]
  {
  }

  /** Lower-casing twice is lower-casing once. */
  lemma LowerIdempotent(s: string)
    ensures Lower(Lower(s)) == Lower(s)
  {
  }

  /** Under the widget bounds the total area is at least 26 m², so it is a safe divisor for the price per m². */
  lemma TotalAreaBounds(f: FormState)
    requires ValidForm(f)
    ensures 26.0 <= TotalArea(f.kitchenArea, f.bathArea, f.otherArea, f.extraArea) <= 479.0 / 3.0
  {
  }

  /** Three square metres of balcony or loggia add one square metre to the total area. */
  lemma TotalAreaExtraWeight(kitchenArea: int, bathArea: int, otherArea: real, extraArea: int)
    ensures TotalArea(kitchenArea, bathArea, otherArea, extraArea + 3)
            == TotalArea(kitchenArea, bathArea, otherArea, extraArea) + 1.0
  {
  }

  /** The record built from any form the widgets can hold is well formed. */
  lemma BuildRecordWellFormed(f: FormState)
    requires ValidForm(f)
    ensures WellFormedRecord(BuildRecord(f))
  {
    LowerExtraTypes();
    TotalAreaBounds(f);
  }

  /** Recovers the form from a record: the inverse of BuildRecord on reachable forms. */
  function FormOf(r: FeatureRecord): (f: FormState)
    ensures f.gas <==> r.gas == "Yes"
    ensures f.hotWater <==> r.hotWater == "Yes"
    ensures f.centralHeating <==> r.centralHeating == "Yes"
    ensures f.displayCount == r.extraAreaCount + 1
    ensures r.extraAreaTypeName == ExtraTypeNames[0] ==> f.extraType == ExtraTypeOptions[0]
    ensures r.extraAreaTypeName != ExtraTypeNames[0] ==> f.extraType == ExtraTypeOptions[1]
  {
    FormState(
      kitchenArea := r.kitchenArea,
      bathArea := r.bathArea,
      otherArea := r.otherArea,
      displayCount := r.extraAreaCount + 1,
      extraArea := r.extraArea,
      extraType := if r.extraAreaTypeName == ExtraTypeNames[0] then ExtraTypeOptions[0] else ExtraTypeOptions[1],
      roomsCount := r.roomsCount,
      year := r.year,
      ceilHeight := r.ceilHeight,
      floorMax := r.floorMax,
      floor := r.floor,
      gas := r.gas == "Yes",
      hotWater := r.hotWater == "Yes",
      centralHeating := r.centralHeating == "Yes",
      district := r.districtName)
  }

  /** Encoding loses nothing: the form is recovered from its record. */
  lemma RecordRoundTrip(f: FormState)
    requires ValidForm(f)
    ensures FormOf(BuildRecord(f)) == f
  {
  }

  /** Two different reachable forms never produce the same record. */
  lemma BuildRecordInjective(f: FormState, g: FormState)
    requires ValidForm(f) && ValidForm(g)
    requires BuildRecord(f) == BuildRecord(g)
    ensures f == g
  {
  }

  /** The worked example: 15 + 20 + 30 + 5/3 m², two bathrooms. */
  lemma WorkedExample()
    ensures TotalArea(15, 20, 30.0, 5) == 200.0 / 3.0
    ensures BathCount(20) == 2
  {
  }
}
