# Trails workbench: alignment curve bookkeeping and guide-line stations

This project models two self-contained pieces of logic in a civil-engineering
workbench for a parametric CAD application, and proves properties of them in Dafny.

**Alignment curve bookkeeping** (`freecad/trails/design/alignment/alignment.py`).
An alignment proxy owns an alignment model: metadata plus a list of geometry
items (tangent lines, curves, spirals), each with a hash. The proxy builds a
curve-to-edge index. For every item that is not a line, the index lists the
polyline edges that draw it. The run of edges starts at the first edge whose
first vertex lies on the curve's start point. It stops at the first edge of
the run whose last vertex lies on the curve's end point, or at the last edge
when no edge does. Each edge is keyed by its 1-based number. The proxy also:
- filters the curves out of the geometry;
- looks geometry up by hash;
- rebuilds the model from edited curves and PI (point of intersection) points;
- copies the truthy metadata values into the host object's properties;
- keeps its change and recompute callbacks quiet while it is being built.

**Guide-line stations** (`freecad/trails/geomatics/section/CreateGuideLines.py`).
The command chooses the stations at which guide lines cross the alignment:
- every geometry item contributes the whole stations of its rounded range that
  are multiples of its type's increment;
- each item's own start station is added when geometry points are requested;
- the alignment's end station, rounded to three decimals, is always added;
- the stations inside the requested window are kept and sorted.

Files:
- `Wrappers.dfy`: `Option` and `Result`.
- `AlignmentData.dfy`: the shared records (points, edges, geometry items, metadata, model data).
- `CurveEdges.dfy`: the specification of the curve-to-edge index, and its lemmas.
- `Alignment.dfy`: the host object and the alignment proxy as classes. The index is built by
  loops proved against `CurveEdges`; the pure lookups are functions.
- `GuideLines.dfy`: station generation as loops proved against specification functions, the
  window filter, an in-place insertion sort, and the error paths.

Conventions of the model:
- Floats are exact `real`s. Python's `round(x)` is round-half-to-even (`RoundHalfEven`), and
  `round(x, 3)` is `RoundHalfEven(1000·x)/1000`.
- Python's `%` is written out as `PyMod`, whose remainder takes the sign of the divisor.
- Python's `int()` on a float truncates toward zero (`TruncateTowardZero`).
- Edge keys are modelled by their 1-based number. `EdgeKeyName` spells the source's
  `'Edge' + str(i + 1)`, and it is proved injective, so numbering the keys loses nothing.
- Host computations arrive as parameters:
  - the point tolerance test (`support.within_tolerance`) is the predicate `near`;
  - the alignment model constructor is `construct`;
  - the model's discretisation is `discretize`;
  - the unit scale factor (`units.scale_factor()`) is `scale`.
- Dialog text fields become plain parameters: integer increments, real window bounds, a
  boolean for the geometry-points option, and integer list indices.

## Model

| member | source | states |
|---|---|---|
| `CurveEdges.StartIndex` | freecad/trails/design/alignment/alignment.py:260-268 | the scan finds the first edge (from a given index) whose first vertex is near the curve start, or reports that none is |
| `CurveEdges.EndIndex` | freecad/trails/design/alignment/alignment.py:271-275 | the run's last edge is the first one from the run's start whose last vertex is near the curve end, or the polyline's last edge when none is |
| `CurveEdges.NumberedRun` | freecad/trails/design/alignment/alignment.py:271 | a run holds exactly the edge numbers lo+1 .. hi+1, each mapped to edge number−1 (1-based keys) |
| `CurveEdges.EdgeRun` | freecad/trails/design/alignment/alignment.py:257-275 | every entry of a curve's run is keyed by a 1-based edge number and holds the polyline edge of that number |
| `CurveEdges.EdgeRunShape` | freecad/trails/design/alignment/alignment.py:257-275 | a curve's run is empty exactly when no edge starts on the curve start; otherwise it is one contiguous block that starts at the first edge starting on the curve start and ends at the first later edge ending on the curve end (or the last edge), with no edge in between ending on the curve end |
| `CurveEdges.CurveEdgeDict` | freecad/trails/design/alignment/alignment.py:250-280 | every entry of every curve's run in the index is keyed by a 1-based edge number and holds the polyline edge of that number |
| `CurveEdges.CurveEdgeDictKeys` | freecad/trails/design/alignment/alignment.py:250-280 | a hash is a key of the index exactly when some non-line geometry item carries it; line items never get an entry |
| `CurveEdges.CurveEdgeDictLastWins` | freecad/trails/design/alignment/alignment.py:280 | the entry under a hash is the run of the last non-line item with that hash; a later curve overwrites an earlier one |
| `CurveEdges.Decimal` | freecad/trails/design/alignment/alignment.py:271 | `str` of a natural number: at least one digit, all digits, the last digit is n mod 10, two or more digits exactly when n ≥ 10 |
| `CurveEdges.DecimalInjective` | freecad/trails/design/alignment/alignment.py:271 | distinct numbers have distinct decimal strings |
| `CurveEdges.EdgeKeyName` | freecad/trails/design/alignment/alignment.py:271 | the key of an edge is 'Edge' followed by decimal digits, the last of which is the edge number mod 10 |
| `CurveEdges.EdgeKeyNameInjective` | freecad/trails/design/alignment/alignment.py:271 | distinct edge numbers give distinct `'Edge' + str(n)` keys |
| `HorizontalAlignment.CollectCurveEdges` | freecad/trails/design/alignment/alignment.py:255-275 | the one-pass scan with its early break yields exactly the curve's specified run |
| `HorizontalAlignment.Alignment.BuildCurveEdgeDict` | freecad/trails/design/alignment/alignment.py:239-282 | the stored index equals the specified index of the model geometry over the host object's edges |
| `HorizontalAlignment.Curves` | freecad/trails/design/alignment/alignment.py:319-325 | an item is in the result exactly when it is in the geometry and is not a line |
| `HorizontalAlignment.CurvesAppend` | freecad/trails/design/alignment/alignment.py:324-325 | filtering distributes over concatenation, so the original order is kept |
| `HorizontalAlignment.CurvesSingle` | freecad/trails/design/alignment/alignment.py:324-325 | a single item is kept exactly when it is not a line |
| `HorizontalAlignment.FirstWithHash` | freecad/trails/design/alignment/alignment.py:336-339 | the search finds the first item carrying the hash, or reports that none does |
| `HorizontalAlignment.FindGeometry` | freecad/trails/design/alignment/alignment.py:327-341 | a missing or empty hash answers the whole geometry (and only such a hash does); otherwise the first item with the hash, or no match exactly when no item has it |
| `HorizontalAlignment.UpdatedData` | freecad/trails/design/alignment/alignment.py:348-357 | the rebuilt data has Start = first PI, End = last PI, the previous StartStation and station data, and the given curves as geometry; no other metadata survives; an empty PI list raises |
| `HorizontalAlignment.Alignment.UpdateCurves` | freecad/trails/design/alignment/alignment.py:343-359 | on a non-empty PI list the model becomes the one built from the rebuilt data, and its metadata is copied into the object; on an empty list nothing changes |
| `HorizontalAlignment.Alignment.SetGeometry` | freecad/trails/design/alignment/alignment.py:361-377 | the new model is the constructed one with its errors cleared, its metadata is copied into the object, and the returned error list is always empty |
| `HorizontalAlignment.ApplyMeta` | freecad/trails/design/alignment/alignment.py:379-406 | each property is overwritten only by a present, truthy metadata value (non-empty text, non-zero number); every other property keeps its value |
| `HorizontalAlignment.ApplyMetaIdempotent` | freecad/trails/design/alignment/alignment.py:379-406 | copying the same metadata twice equals copying it once |
| `HorizontalAlignment.Alignment.AssignMetaData` | freecad/trails/design/alignment/alignment.py:379-406 | the object's properties become the old ones with the truthy metadata copied in, and no other field changes |
| `HorizontalAlignment.TruncateTowardZero` | freecad/trails/design/alignment/alignment.py:421-428 | Python's `int()` on a float: the integer toward zero that is less than one away |
| `HorizontalAlignment.ToleranceSegValue` | freecad/trails/design/alignment/alignment.py:169 | `int(1000.0 / scale) / 100.0`: a whole number of hundredths; for a positive scale it is 10/scale rounded down to hundredths |
| `HorizontalAlignment.IntervalSegValue` | freecad/trails/design/alignment/alignment.py:421 | `int(3000.0 / scale)`: a whole number; for a positive scale it is 3000/scale rounded down |
| `HorizontalAlignment.SegValueFor` | freecad/trails/design/alignment/alignment.py:418-428 | the segment value for a subdivision method: Interval gives 3000/scale rounded down to a whole number, Segment gives exactly 200.0, Tolerance gives 10/scale rounded down to hundredths (for a positive scale), and any other method keeps the current value |
| `HorizontalAlignment.Alignment.OnChanged` | freecad/trails/design/alignment/alignment.py:408-428 | while `noExecute` is set, or for any property other than Method, the segment value is unchanged; otherwise Interval, Segment (200.0) and Tolerance reset it to their defaults and any other method keeps it |
| `HorizontalAlignment.Alignment.Execute` | freecad/trails/design/alignment/alignment.py:430-444 | while `noExecute` is set the points are unchanged; otherwise they become the model's discretisation unless that is empty |
| `HorizontalAlignment.Alignment.constructor` | freecad/trails/design/alignment/alignment.py:85-172 | label (the object's name when none is given), default properties, no model and no edge index; `noExecute` is cleared at the end |
| `HorizontalAlignment.Alignment.AddProperties` | freecad/trails/design/alignment/alignment.py:115-170 | the registered defaults: empty Id, oID and Description, zero Length and Start_Station, Status 'existing', Method 'Tolerance', and the Tolerance segment value `int(1000.0 / scale) / 100.0`; ObjectID is not touched |
| `GuideLines.RoundHalfEven` | freecad/trails/geomatics/section/CreateGuideLines.py:232-233 | Python's `round`: within one half of x, and an exact tie goes to the even integer |
| `GuideLines.Round3` | freecad/trails/geomatics/section/CreateGuideLines.py:249 | `round(x, 3)`: a whole number of thousandths, within half a thousandth of x, and an exact tie goes to the even number of thousandths |
| `GuideLines.PyMod` | freecad/trails/geomatics/section/CreateGuideLines.py:236-245 | Python's `%`: the remainder lies between zero and the divisor, on the divisor's side, and is zero exactly when Dafny's remainder is |
| `GuideLines.PyModZeroIsMultiple` | freecad/trails/geomatics/section/CreateGuideLines.py:236-245 | a zero remainder means the station is a whole multiple of the increment, whatever the signs |
| `GuideLines.SegmentEnd` | freecad/trails/geomatics/section/CreateGuideLines.py:222 | an item's end station lies Length/1000 past its start station, so never before it for a non-negative length |
| `GuideLines.IncrementFor` | freecad/trails/geomatics/section/CreateGuideLines.py:229-246 | a Line item uses the tangent increment, a Curve or Spiral item the curve/spiral increment, and an item of any other type has no increment |
| `GuideLines.IntervalStations` | freecad/trails/geomatics/section/CreateGuideLines.py:232-237 | no more stations than integers in [lo, hi), each a whole number inside [lo, hi) |
| `GuideLines.IntervalStationsMembers` | freecad/trails/geomatics/section/CreateGuideLines.py:229-246 | a station is an interval station exactly when it is a whole number in [round(start), round(end)) that is a multiple of the increment |
| `GuideLines.IntervalStationsAscending` | freecad/trails/geomatics/section/CreateGuideLines.py:232-237 | the interval stations are strictly ascending |
| `GuideLines.IncrementStations` | freecad/trails/geomatics/section/CreateGuideLines.py:232-246 | the range loop yields the interval stations; it fails with a zero division exactly when the increment is zero and the range is not empty |
| `GuideLines.SegmentStations` | freecad/trails/geomatics/section/CreateGuideLines.py:218-246 | every station an item contributes is its own start station or a whole number; when geometry points are on and the start station is non-zero, the start station comes first |
| `GuideLines.SegmentStationsMembers` | freecad/trails/geomatics/section/CreateGuideLines.py:218-246 | an item contributes its start station exactly when it is non-zero and geometry points are on; otherwise only whole stations of its range on its type's increment (tangent for Line, curve/spiral for Curve and Spiral); other types contribute no interval stations |
| `GuideLines.GeometryStations` | freecad/trails/geomatics/section/CreateGuideLines.py:214-246 | every station of the geometry comes from some item's contribution |
| `GuideLines.GeometryStationsMembers` | freecad/trails/geomatics/section/CreateGuideLines.py:214-246 | a station is a geometry station exactly when some item contributes it |
| `GuideLines.Candidates` | freecad/trails/geomatics/section/CreateGuideLines.py:214-249 | the rounded end station is always a candidate, and every other candidate comes from some item's contribution |
| `GuideLines.SegmentCandidates` | freecad/trails/geomatics/section/CreateGuideLines.py:218-246 | one item's appended stations equal its specified contribution; the item fails exactly when its increment is zero and its rounded range is not empty |
| `GuideLines.CandidateStations` | freecad/trails/geomatics/section/CreateGuideLines.py:214-249 | the candidate list equals all items' contributions followed by the rounded end station; it fails exactly when some item divides by zero |
| `GuideLines.Filter` | freecad/trails/geomatics/section/CreateGuideLines.py:251-257 | every kept station lies in [first, last], both ends included; each station in the window keeps its full multiplicity, so duplicates are not removed |
| `GuideLines.FilterStations` | freecad/trails/geomatics/section/CreateGuideLines.py:251-257 | the filtering loop yields exactly the specified filter |
| `GuideLines.EndStationKept` | freecad/trails/geomatics/section/CreateGuideLines.py:249-257 | the rounded end station is kept exactly when it lies inside the window |
| `GuideLines.KeptStationsFacts` | freecad/trails/geomatics/section/CreateGuideLines.py:254-259 | any arrangement of the kept candidates lies in the window and holds the end station exactly when the window contains it |
| `GuideLines.SortInPlace` | freecad/trails/geomatics/section/CreateGuideLines.py:259 | the list ends up sorted ascending and is a permutation of what it held |
| `GuideLines.AlignmentInfos` | freecad/trails/geomatics/section/CreateGuideLines.py:110-125 | a negative index gives no alignment and stations 0.0 and 0.0; a selected alignment whose metadata lacks StartStation or Length (or holds None there) fails, as the source's KeyError or TypeError does; otherwise the selected alignment, its StartStation, and an End that lies Length/1000 past the start |
| `GuideLines.GuideStations` | freecad/trails/geomatics/section/CreateGuideLines.py:178-259 | errors in the source's order: no group (checked first), no alignment, missing StartStation or Length in the alignment's metadata, zero increment on a non-empty range; on success the result is sorted, is a permutation of the candidates inside the window, lies in the window, and holds the rounded end station exactly when the window contains it |

## Left out

- Host object plumbing is not modelled:
  - `create`, property registration for Datum, Hashes, PIs and Parent Alignment, `onDocumentRestored`, `_plot_vectors`;
  - the `Draft` wire base class, the view provider, placement, and document recompute.
- The accessors are not modelled, because none of them computes anything of its own:
  - `get_edges` returns the stored curve-to-edge index (`curveEdges` here);
  - `get_data` returns the model's data, and `get_data_copy` a deep copy of it;
  - `get_length` returns the metadata's Length;
  - `get_pi_coords` delegates to the alignment model, which is not part of this model.
- `get_curves` and `get_geometry` are modelled by `Curves` and `FindGeometry` over the model's geometry.
- HorizontalAlignment.Alignment.Execute: the host's wire base class rebuilds the shape, and so its edges, from the new points. Here `edges` is an independent input that `Execute` does not re-derive, so it keeps its old value after a recompute.
- `AlignmentModel` is not part of this model. Its constructor and `discretize_geometry` are function parameters whose results are taken as given.
- `support.within_tolerance` is the abstract predicate `near`.
- `units.scale_factor()` is a non-zero parameter `scale`.
- Console messages are left out: the reported model errors and the "Please add ..." prompts.
- HorizontalAlignment.Alignment.SetGeometry: the model's error list is cleared in place in the source. Here the model is a value, so another holder of the same list would not see it cleared.
- HorizontalAlignment.Alignment.AssignMetaData: the ' ft' text appended to Start_Station is not modelled; the station value is stored.
  - Whether the host accepts a Status outside its enumeration is not modelled.
  - The source writes `ObjectID` while the constructor registers `oID`. These are kept as two separate fields.
- A geometry item without a 'Type' is modelled by a type name that is none of Line, Curve and Spiral:
  - `alignment.py` reads the type with `.get('Type')`, so such an item counts as a curve there, as in the model;
  - `CreateGuideLines.py` line 240 reads `Geo["Type"]` and raises KeyError for it; the model lets it contribute no interval stations instead.
- A geometry item without 'StartStation' or 'Length' raises TypeError in `CreateGuideLines.py` line 222; here every item carries both as numbers.
- GuideLines.GuideStations stops at the sorted station list. Drawing the guide lines is left out, because it needs `get_orthogonal`, float vectors and the left/right offsets. Adding the lines to the group and labelling them with `str(round(Station, 3))` is left out too.
- GuideLines.GuideStations: Python's distinction between an int station (from a range) and a float station (a start or end station) is not modelled. All stations are reals, so e.g. 5 and 5.0 are the same value.
- GuideLines.RoundHalfEven and GuideLines.Round3 round exact reals. Python rounds the binary value of a float, which can differ on values that are not exactly representable.
- Text-to-number conversion of the dialog fields (`int()`, `float()`) and its ValueError are not modelled.
- GuideLines.AlignmentInfos: the alignment list index is assumed to be below the list's length, as the combo box guarantees.
- The dialog wiring is not modelled: `Activated`, `ListGuideLinesGroups`, `ActivateStations`, `LoadCGLGui`, `CreateNewGroup`.
- `draft_alignment_cmd.py`, `point_group.py`, `point_groups.py` and `marker.py` are not part of this model. They are GUI and scene-graph code; the edge lookup in `select_curve_edges` only queries the index modelled here.
