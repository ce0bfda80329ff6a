# Flat Price Predictor — feature assembly

The Flat Price Predictor is a single Streamlit page. It collects the attributes of a
St Petersburg flat and shows a price estimated by a pre-trained regression model.
The only logic the page owns is the step between the form and the model. That step
turns the raw widget values into the 17-field feature record and the data of the
"Area Composition" chart. This project models that step as pure Dafny functions and
proves what it guarantees:

- `Form` (form.dfy): the bounds of every widget, the bounds and defaults that depend
  on other widgets, and `ValidForm`, the set of form states the widgets can hold.
  - The rooms slider's upper bound is `max(1, int(other_area // 10))`. Its default is `min(1, bound)`.
  - The floor slider's upper bound is the building height. Its default is `min(6, floor_max)`.
  - `extra_area_count` is the extras slider minus one.
- `Features` (features.dfy): the derived features `total_area` and `bath_count`, the
  Yes/No encoding of the utility toggles, the lower-cased extra-area type, and the
  record built on submission.
  - The record is well formed for every reachable form.
  - It loses nothing: `FormOf` recovers the form from it.
- `Chart` (chart.dfy): the four areas in the fixed order Kitchen, Bathroom, Other,
  Extra, with non-positive sizes masked out.
  - Under the widget minimums, only Extra can be dropped, and only when its area is 0.

Python floats (`other_area`, `ceil_height`, `total_area`, the chart sizes) are Dafny
`real`. The arithmetic used is a sum and a division by 3, which is exact on rationals.
`int(x // 10)` is `(x / 10.0).Floor`. Integer widgets stay `int`.

## Model

| member | source | states |
|---|---|---|
| Form.MaxRoomsAllowed | PyCharm/script.py:90 | the rooms bound is at least 1; it is 1 below 20 m²; from 10 m² up it is the whole number of tens in the Other Area |
| Form.MaxRoomsInRange | PyCharm/script.py:66-90 | for Other Area in [12.0, 91.0] the rooms bound lies in 1..9 |
| Form.MaxRoomsMonotone | PyCharm/script.py:90-95 | a larger Other Area never lowers the rooms slider's maximum |
| Form.MaxRoomsOnHalfMetreGrid | PyCharm/script.py:66-90 | with other_area = h/2 on the input's 0.5 step, the bound is max(1, h div 20) in integer arithmetic |
| Form.DefaultRooms | PyCharm/script.py:92-94 | the default room count lies in the slider range [0, bound] and is always 1 |
| Form.DefaultFloor | PyCharm/script.py:153-155 | the default floor is at most 6 and at most floor_max, equals one of them, and is at least 1 when floor_max is |
| Form.DefaultFloorInSlider | PyCharm/script.py:150-155 | for every floor_max in 1..23 the default floor lies in [1, floor_max] |
| Form.ExtraAreaCount | PyCharm/script.py:74-78 | extra_area_count is in {0, 1, 2} exactly when the extras slider is in 1..3 |
| Form.ValidForm | PyCharm/script.py:56-182 | the input domain: every widget within its bounds (kitchen 7..26, bath 7..36, other 12.0..91.0, extras 1..3, extra area 0..20, year 1900..2020, ceiling 2.5..5.0, floor_max 1..23), rooms within [0, MaxRoomsAllowed], floor within [1, floor_max], extra type and district in their option lists; a valid form has at most 9 rooms and floor ≤ 23 |
| Form.DefaultForm | PyCharm/script.py:56-182 | the widgets' declared defaults form a valid form state with 1 room, floor 6 and district Moskovskij |
| Features.BathCount | PyCharm/script.py:102 | bath_count is 2 exactly when bath_area ≥ 16, and 1 exactly when it is below |
| Features.TotalArea | PyCharm/script.py:101 | total area is kitchen + bath + other + extra/3, so for a non-negative extra area it lies between kitchen + bath + other and that sum plus the whole extra area |
| Features.TotalAreaExtraWeight | PyCharm/script.py:101 | three more square metres of extra area add exactly one square metre to the total |
| Features.TotalAreaBounds | PyCharm/script.py:56-101 | for every valid form the total area lies in [26, 479/3], so the per-m² division never divides by zero |
| Features.WorkedExample | PyCharm/script.py:101-102 | kitchen 15, bath 20, other 30, extra 5 give 200/3 m² and two bathrooms |
| Features.YesNo | PyCharm/script.py:197-199 | a utility field is "Yes" iff its toggle is on and "No" iff it is off |
| Features.LowerChar | PyCharm/script.py:208 | the result is never an upper-case letter, and only upper-case letters change (by the ASCII offset) |
| Features.Lower | PyCharm/script.py:208 | lower-casing keeps the length and lower-cases every character in place |
| Features.LowerIdempotent | PyCharm/script.py:208 | lower-casing an already lower-cased string changes nothing |
| Features.LowerExtraTypes | PyCharm/script.py:208 | the radio labels "Balcony" and "Loggia" become "balcony" and "loggia" |
| Features.BuildRecord | PyCharm/script.py:193-211 | each field of the record: the derived features, the encoded categories and the pass-through fields equal to their inputs |
| Features.BuildRecordWellFormed | PyCharm/script.py:193-211 | every record from a valid form is well formed: floor ≤ floor_max, bath_count rule, extra type in {balcony, loggia}, Yes/No utilities, the district is one of the seven, rooms within the bound, total area ≥ 26 |
| Features.FormOf | PyCharm/script.py:193-211 | decoding a record: each of gas, hot water and central heating is on iff its field is "Yes", the extras slider is the count plus one, "balcony" gives the Balcony label and anything else Loggia |
| Features.RecordRoundTrip | PyCharm/script.py:193-211 | decoding the record of a valid form gives back the form: every field passes through unchanged or is encoded losslessly |
| Features.BuildRecordInjective | PyCharm/script.py:193-211 | two different valid forms never produce the same record |
| Chart.Rank | PyCharm/script.py:110 | each room has a position in the fixed order Kitchen, Bathroom, Other, Extra |
| Chart.LayoutRows | PyCharm/script.py:110-113 | the unfiltered frame has one row per room, in the fixed order, and row i carries room i's area (kitchen, bath, other, extra) |
| Chart.KeepPositive | PyCharm/script.py:114 | the mask keeps exactly the rows of size > 0 and never reorders them |
| Chart.ChartData | PyCharm/script.py:110-114 | the chart data is in the fixed room order and holds exactly the layout rows whose size is positive |
| Chart.LabelsFollowRoomOrder | PyCharm/script.py:110 | the category labels are Kitchen, Bathroom, Other, Extra in the fixed order, and distinct rooms have distinct labels |
| Chart.KeepPositiveAllPositive | PyCharm/script.py:114 | a frame of positive rows passes the mask unchanged |
| Chart.KeepPositiveConcat | PyCharm/script.py:114 | the mask distributes over concatenation of frames |
| Chart.ChartDropsOnlyZeroExtra | PyCharm/script.py:57-114 | under the widget minimums the chart shows all four rooms when extra area > 0, and Kitchen, Bathroom, Other when it is 0 |

## Left out

- The currency-rate fetch (PyCharm/script.py:9-23) is left out. It is an HTTP call behind a 24-hour framework cache, and the fallback pair is a constant.
- Model loading and `model.predict` (PyCharm/script.py:39-44, 213-214) are left out. They are a pickle load and an opaque external model.
- The stylesheet injection (PyCharm/script.py:32-36) is left out because it is file I/O.
- `np.expm1`, the currency products and the per-m² division (PyCharm/script.py:215-222) are left out because they are floating point. The only fact carried over is that the divisor is at least 26 (`Features.TotalAreaBounds`).
- Widget rendering, layout, the dialog, number formatting and the Altair chart encoding (PyCharm/script.py:47-190, 116-133, 218-242) are left out because they are UI.
- Streamlit's rerun behaviour is left out because it belongs to the framework. This includes how a slider's value is reset when its bounds change. The model proves only that every default lies within its widget's current bounds.
- The 0.5 step of Other Area and the 0.05 step of Ceiling Height are not part of `ValidForm`. They govern the +/- buttons, not the values a user can type. `Form.MaxRoomsOnHalfMetreGrid` covers the 0.5 grid.
- Features.Lower: models ASCII lower-casing only, not Python's Unicode `str.lower`. This is exact here, because its only inputs are the two radio labels.
- Python float rounding is not modelled; areas are exact reals. The sums and the division by 3 could differ from IEEE doubles in the last bit. So could the floor of `other_area / 10`.
