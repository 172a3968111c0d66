/**
 * The choice of stations at which guide lines are drawn across an alignment.
 *
 * Every geometry item contributes the whole stations of its rounded station
 * range that are multiples of an increment (the tangent increment for lines,
 * the curve/spiral increment for curves and spirals) and, when asked for, its
 * own start station; the alignment's end station, rounded to three decimals,
 * is always added. The stations that fall inside the requested window are
 * kept and sorted.
 *
 * Stations are exact reals here; Python's `round` is modelled as
 * round-half-to-even on them.
 */
module GuideLines {
  import opened Wrappers
  import opened AlignmentData

  /** Python's `round(x)`: the nearest integer, ties going to the even one. */
  function RoundHalfEven(x: real): (r: int)
    ensures -0.5 <= x - r as real <= 0.5
    ensures (x - r as real == 0.5 || x - r as real == -0.5) ==> r % 2 == 0
  {
    var f := x.Floor;
    var frac := x - f as real;
    if frac < 0.5 then f
    else if frac > 0.5 then f + 1
    else if f % 2 == 0 then f else f + 1
  }

  /** Python's `round(x, 3)`: the nearest multiple of 1/1000, ties to even. */
  function Round3(x: real): (r: real)
    ensures IsWhole(r * 1000.0)
    ensures -0.5 <= x * 1000.0 - r * 1000.0 <= 0.5
    ensures (x * 1000.0 - r * 1000.0 == 0.5 || x * 1000.0 - r * 1000.0 == -0.5) ==> (r * 1000.0).Floor % 2 == 0
  {
    RoundHalfEven(x * 1000.0) as real / 1000.0
  }

  /** Python's `a % n` on integers: the remainder takes the sign of `n`. */
  function PyMod(a: int, n: int): (r: int)
    requires n != 0
    ensures 0 < n ==> 0 <= r < n
    ensures n < 0 ==> n < r <= 0
    ensures r == 0 <==> a % n == 0
  {
    var m := a % n;
    if n < 0 && m != 0 then m + n else m
  }

  /** A zero remainder means `a` is a whole multiple of `n`, whatever their signs. */
  lemma PyModZeroIsMultiple(a: int, n: int)
    requires n != 0
    ensures PyMod(a, n) == 0 <==> a == (a / n) * n
  {
  }

  /** Sorted in ascending order. */
  predicate Sorted(s: seq<real>) {
    forall j, k :: 0 <= j < k < |s| ==> s[j] <= s[k]
  }

  /** A real that is a whole number. */
  predicate IsWhole(x: real) {
    x == x.Floor as real
  }

  /**
   * The whole stations i with lo <= i < hi that are multiples of `n`, in
   * ascending order. With `n` zero and a non-empty range the source divides
   * by zero, so that case is excluded here and reported by the callers.
   */
  function IntervalStations(lo: int, hi: int, n: int): (r: seq<real>)
    requires n != 0 || hi <= lo
    ensures |r| <= if lo < hi then hi - lo else 0
    ensures forall x :: x in r ==> IsWhole(x) && lo as real <= x < hi as real
    decreases hi - lo
  {
    if hi <= lo then []
    else IntervalStations(lo, hi - 1, n) + (if PyMod(hi - 1, n) == 0 then [(hi - 1) as real] else [])
  }

  /**
   * A station is an interval station exactly when it is a whole number of
   * the range [lo, hi) that is a multiple of `n`.
   */
  lemma {:induction false} IntervalStationsMembers(lo: int, hi: int, n: int, x: real)
    requires n != 0 || hi <= lo
    ensures x in IntervalStations(lo, hi, n) <==> IsWhole(x) && lo <= x.Floor < hi && PyMod(x.Floor, n) == 0
    decreases hi - lo
  {
    if lo < hi {
      IntervalStationsMembers(lo, hi - 1, n, x);
      if x == (hi - 1) as real {
        assert x.Floor == hi - 1;
      }
    }
  }

  /** The interval stations come in strictly ascending order. */
  lemma {:induction false} IntervalStationsAscending(lo: int, hi: int, n: int)
    requires n != 0 || hi <= lo
    ensures forall j, k :: 0 <= j < k < |IntervalStations(lo, hi, n)| ==>
      IntervalStations(lo, hi, n)[j] < IntervalStations(lo, hi, n)[k]
    decreases hi - lo
  {
    if lo < hi {
      var init := IntervalStations(lo, hi - 1, n);
      var r := IntervalStations(lo, hi, n);
      IntervalStationsAscending(lo, hi - 1, n);
      forall j, k | 0 <= j < k < |r| ensures r[j] < r[k] {
        if k >= |init| {
          assert r[k] == (hi - 1) as real && r[j] == init[j];
          IntervalStationsMembers(lo, hi - 1, n, init[j]);
        } else {
          assert r[j] == init[j] && r[k] == init[k];
        }
      }
    }
  }

  /** The guide-line options that drive the choice of stations. */
  datatype GuideSettings = GuideSettings(
    firstStation: real,
    lastStation: real,
    tangentIncrement: int,
    curveSpiralIncrement: int,
    geometryPoints: bool)

  /** Why no guide lines were made. */
  datatype GuideError = NoGuideLineGroup | NoAlignment | MissingStationData | ZeroIncrement

  /** The station at which a geometry item ends (its length is in millimetres). */
  function SegmentEnd(g: Geometry): (r: real)
    ensures r - g.startStation == g.length / 1000.0
    ensures 0.0 <= g.length ==> g.startStation <= r
  {
    g.startStation + g.length / 1000.0
  }

  /** The increment that spaces the whole stations of an item of this type, if any. */
  function IncrementFor(g: Geometry, settings: GuideSettings): (r: Option<int>)
    ensures r.Some? <==> IsLine(g) || g.kind == "Curve" || g.kind == "Spiral"
    ensures IsLine(g) ==> r == Some(settings.tangentIncrement)
    ensures g.kind == "Curve" || g.kind == "Spiral" ==> r == Some(settings.curveSpiralIncrement)
  {
    if IsLine(g) then Some(settings.tangentIncrement)
    else if g.kind == "Curve" || g.kind == "Spiral" then Some(settings.curveSpiralIncrement)
    else None
  }

  /** The item's increment is zero while its rounded range is not empty: the source divides by zero. */
  predicate DividesByZero(g: Geometry, settings: GuideSettings) {
    IncrementFor(g, settings) == Some(0) && RoundHalfEven(g.startStation) < RoundHalfEven(SegmentEnd(g))
  }

  /** Some item of `geometry` divides by zero. */
  predicate HasZeroDivision(geometry: seq<Geometry>, settings: GuideSettings) {
    exists k :: 0 <= k < |geometry| && DividesByZero(geometry[k], settings)
  }

  /** The stations one geometry item contributes, in the order the source appends them. */
  function SegmentStations(g: Geometry, settings: GuideSettings): (r: seq<real>)
    requires !DividesByZero(g, settings)
    ensures forall x :: x in r ==> x == g.startStation || IsWhole(x)
    ensures g.startStation != 0.0 && settings.geometryPoints ==> |r| > 0 && r[0] == g.startStation
  {
    (if g.startStation != 0.0 && settings.geometryPoints then [g.startStation] else []) +
    match IncrementFor(g, settings)
    case None => []
    case Some(n) => IntervalStations(RoundHalfEven(g.startStation), RoundHalfEven(SegmentEnd(g)), n)
  }

  /**
   * A geometry item contributes its own start station exactly when that is
   * non-zero and geometry points are asked for, and otherwise exactly the
   * whole stations of its rounded range that are multiples of its type's
   * increment; an item that is neither line, curve nor spiral contributes no
   * such stations.
   */
  lemma SegmentStationsMembers(g: Geometry, settings: GuideSettings, x: real)
    requires !DividesByZero(g, settings)
    ensures x in SegmentStations(g, settings) <==>
      (x == g.startStation && g.startStation != 0.0 && settings.geometryPoints) ||
      (IncrementFor(g, settings).Some? && IsWhole(x) &&
       RoundHalfEven(g.startStation) <= x.Floor < RoundHalfEven(SegmentEnd(g)) &&
       PyMod(x.Floor, IncrementFor(g, settings).value) == 0)
  {
    var own := if g.startStation != 0.0 && settings.geometryPoints then [g.startStation] else [];
    var lo, hi := RoundHalfEven(g.startStation), RoundHalfEven(SegmentEnd(g));
    match IncrementFor(g, settings)
    case None =>
      assert SegmentStations(g, settings) == own;
    case Some(n) =>
      assert SegmentStations(g, settings) == own + IntervalStations(lo, hi, n);
      IntervalStationsMembers(lo, hi, n, x);
  }

  /** The stations of all items of `geometry`, item after item. */
  function GeometryStations(geometry: seq<Geometry>, settings: GuideSettings): (r: seq<real>)
    requires !HasZeroDivision(geometry, settings)
    ensures forall x :: x in r ==> exists k :: 0 <= k < |geometry| && x in SegmentStations(geometry[k], settings)
  {
    if geometry == [] then []
    else
      var init := geometry[..|geometry| - 1];
      assert !HasZeroDivision(init, settings) by {
        forall k | 0 <= k < |init| ensures !DividesByZero(init[k], settings) {
          assert init[k] == geometry[k];
        }
      }
      var r := GeometryStations(init, settings) + SegmentStations(geometry[|geometry| - 1], settings);
      assert forall x :: x in r ==> exists k :: 0 <= k < |geometry| && x in SegmentStations(geometry[k], settings) by {
        forall x | x in r ensures exists k :: 0 <= k < |geometry| && x in SegmentStations(geometry[k], settings) {
          if x in GeometryStations(init, settings) {
            var k :| 0 <= k < |init| && x in SegmentStations(init[k], settings);
            assert init[k] == geometry[k];
          } else {
            assert x in SegmentStations(geometry[|geometry| - 1], settings);
          }
        }
      }
      r
  }

  /** A station comes from the geometry exactly when some item contributes it. */
  lemma {:induction false} GeometryStationsMembers(geometry: seq<Geometry>, settings: GuideSettings, x: real)
    requires !HasZeroDivision(geometry, settings)
    ensures x in GeometryStations(geometry, settings) <==>
      exists k :: 0 <= k < |geometry| && x in SegmentStations(geometry[k], settings)
  {
    if k :| 0 <= k < |geometry| && x in SegmentStations(geometry[k], settings) {
      var n := |geometry|;
      var init := geometry[..n - 1];
      PrefixDividesByZero(geometry, n - 1, settings);
      GeometryStationsStep(geometry, n - 1, settings);
      assert geometry[..n] == geometry;
      var last := SegmentStations(geometry[n - 1], settings);
      assert GeometryStations(geometry, settings) == GeometryStations(init, settings) + last;
      if k < n - 1 {
        assert init[k] == geometry[k];
        GeometryStationsMembers(init, settings, x);
        assert x in GeometryStations(init, settings);
      } else {
        assert k == n - 1 && geometry[k] == geometry[n - 1];
        assert x in last;
      }
    }
  }

  /** A prefix of items none of which divides by zero has no such item either. */
  lemma PrefixDividesByZero(geometry: seq<Geometry>, m: nat, settings: GuideSettings)
    requires m <= |geometry| && !HasZeroDivision(geometry, settings)
    ensures !HasZeroDivision(geometry[..m], settings)
  {
    forall j | 0 <= j < m ensures !DividesByZero(geometry[..m][j], settings) {
      assert geometry[..m][j] == geometry[j];
    }
  }

  /** Every candidate station: those of the geometry, then the rounded end station. */
  function Candidates(geometry: seq<Geometry>, settings: GuideSettings, end: real): (r: seq<real>)
    requires !HasZeroDivision(geometry, settings)
    ensures Round3(end) in r
    ensures forall x :: x in r ==> x == Round3(end) || exists k :: 0 <= k < |geometry| && x in SegmentStations(geometry[k], settings)
  {
    GeometryStations(geometry, settings) + [Round3(end)]
  }

  /**
   * The stations inside [first, last], both ends included, in their order;
   * repeated stations stay repeated.
   */
  function Filter(stations: seq<real>, first: real, last: real): (r: seq<real>)
    ensures forall x :: x in r ==> first <= x <= last
    ensures forall x :: multiset(r)[x] == if first <= x <= last then multiset(stations)[x] else 0
  {
    if stations == [] then []
    else
      var init := stations[..|stations| - 1];
      var x := stations[|stations| - 1];
      assert stations == init + [x];
      Filter(init, first, last) + (if first <= x <= last then [x] else [])
  }

  /** The rounded end station is always a candidate, so it is kept exactly when it lies in the window. */
  lemma EndStationKept(geometry: seq<Geometry>, settings: GuideSettings, end: real)
    requires !HasZeroDivision(geometry, settings)
    ensures var kept := Filter(Candidates(geometry, settings, end), settings.firstStation, settings.lastStation);
      Round3(end) in kept <==> settings.firstStation <= Round3(end) <= settings.lastStation
  {
    var candidates := Candidates(geometry, settings, end);
    assert candidates[|candidates| - 1] == Round3(end);
    assert Round3(end) in multiset(candidates);
  }

  /**
   * Any arrangement of the kept candidates lies inside the window and holds
   * the rounded end station exactly when the window contains it.
   */
  lemma KeptStationsFacts(stations: seq<real>, geometry: seq<Geometry>, settings: GuideSettings, end: real)
    requires !HasZeroDivision(geometry, settings)
    requires multiset(stations) == multiset(Filter(Candidates(geometry, settings, end), settings.firstStation, settings.lastStation))
    ensures forall x :: x in stations ==> settings.firstStation <= x <= settings.lastStation
    ensures Round3(end) in stations <==> settings.firstStation <= Round3(end) <= settings.lastStation
  {
    var kept := Filter(Candidates(geometry, settings, end), settings.firstStation, settings.lastStation);
    EndStationKept(geometry, settings, end);
    forall x | x in stations ensures settings.firstStation <= x <= settings.lastStation {
      assert x in multiset(kept);
    }
    assert Round3(end) in stations <==> Round3(end) in multiset(kept);
  }

  /** An index the alignment list can hold: one of its positions, or negative for no selection. */
  predicate Selectable(index: int, alignments: seq<Data>) {
    index < |alignments|
  }

  /** The selected alignment with its start and end stations. */
  datatype AlignmentInfo = AlignmentInfo(alignment: Option<Data>, start: real, end: real)

  /** The selected alignment's metadata lacks a start station or a length (the source raises). */
  predicate IncompleteMeta(index: int, alignments: seq<Data>)
    requires Selectable(index, alignments)
  {
    0 <= index && (alignments[index].meta.startStation.None? || alignments[index].meta.length.None?)
  }

  /**
   * The selected alignment and its station range: no selection (a negative
   * index) gives no alignment and zero stations; a selected alignment whose
   * metadata lacks its start station or its length is an error; otherwise
   * the end station lies one thousandth of the length (in millimetres) past
   * the start station.
   */
  function AlignmentInfos(index: int, alignments: seq<Data>): (r: Result<AlignmentInfo, GuideError>)
    requires Selectable(index, alignments)
    ensures r.Err? <==> IncompleteMeta(index, alignments)
    ensures r.Err? ==> r.error == MissingStationData
    ensures r.Ok? ==> (r.value.alignment.None? <==> index < 0)
    ensures r.Ok? && index < 0 ==> r.value.start == 0.0 && r.value.end == 0.0
    ensures r.Ok? && 0 <= index ==> (r.value.alignment == Some(alignments[index]) &&
                                     r.value.start == alignments[index].meta.startStation.value &&
                                     r.value.end - r.value.start == alignments[index].meta.length.value / 1000.0)
  {
    if index < 0 then Ok(AlignmentInfo(None, 0.0, 0.0))
    else
      var meta := alignments[index].meta;
      if meta.startStation.None? || meta.length.None? then Err(MissingStationData)
      else Ok(AlignmentInfo(Some(alignments[index]), meta.startStation.value, meta.startStation.value + meta.length.value / 1000.0))
  }

  /**
   * The whole stations of [lo, hi) that are multiples of `n`, found by one
   * pass over the range; with `n` zero the first step divides by zero.
   */
  method IncrementStations(lo: int, hi: int, n: int) returns (r: Result<seq<real>, GuideError>)
    ensures r.Err? <==> n == 0 && lo < hi
    ensures r.Err? ==> r.error == ZeroIncrement
    ensures r.Ok? ==> r.value == IntervalStations(lo, hi, n)
  {
    var stations: seq<real> := [];
    var i := lo;
    while i < hi
      invariant i == lo || lo < i <= hi
      invariant lo < i ==> n != 0
      invariant stations == IntervalStations(lo, i, n)
    {
      if n == 0 {
        return Err(ZeroIncrement);
      }
      // keep the stations that land on the increment exactly
      if PyMod(i, n) == 0 {
        stations := stations + [i as real];
      }
      i := i + 1;
    }
    return Ok(stations);
  }

  /** Exchanges two elements of `a`. */
  method Swap(a: array<real>, i: int, j: int)
    requires 0 <= i < a.Length && 0 <= j < a.Length
    modifies a
    ensures a[i] == old(a[j]) && a[j] == old(a[i])
    ensures forall k :: 0 <= k < a.Length && k != i && k != j ==> a[k] == old(a[k])
    ensures multiset(a[..]) == old(multiset(a[..]))
  {
    a[i], a[j] := a[j], a[i];
  }

  /** Sorts `a` in place, ascending. */
  method SortInPlace(a: array<real>)
    modifies a
    ensures Sorted(a[..])
    ensures multiset(a[..]) == old(multiset(a[..]))
  {
    var i := 0;
    while i < a.Length
      invariant 0 <= i <= a.Length
      invariant forall p, q :: 0 <= p < q < i ==> a[p] <= a[q]
      invariant multiset(a[..]) == old(multiset(a[..]))
    {
      // sink a[i] into the sorted prefix a[..i]
      var j := i;
      while 0 < j && a[j] < a[j - 1]
        invariant 0 <= j <= i
        invariant forall p, q :: 0 <= p < q <= i && p != j && q != j ==> a[p] <= a[q]
        invariant forall q :: j < q <= i ==> a[j] <= a[q]
        invariant multiset(a[..]) == old(multiset(a[..]))
      {
        Swap(a, j - 1, j);
        j := j - 1;
      }
      i := i + 1;
    }
  }

  /**
   * The stations one geometry item contributes, as the source appends them:
   * its start station when asked for, then the whole stations of its range
   * on its type's increment.
   */
  method SegmentCandidates(geo: Geometry, settings: GuideSettings) returns (r: Result<seq<real>, GuideError>)
    ensures r.Err? <==> DividesByZero(geo, settings)
    ensures r.Err? ==> r.error == ZeroIncrement
    ensures r.Ok? ==> r.value == SegmentStations(geo, settings)
  {
    var startStation := geo.startStation;
    var endStation := SegmentEnd(geo);
    var stations := if startStation != 0.0 && settings.geometryPoints then [startStation] else [];
    var lo, hi := RoundHalfEven(startStation), RoundHalfEven(endStation);
    if IsLine(geo) {
      var found := IncrementStations(lo, hi, settings.tangentIncrement);
      if found.Err? {
        return Err(ZeroIncrement);
      }
      stations := stations + found.value;
    } else if geo.kind == "Curve" || geo.kind == "Spiral" {
      var found := IncrementStations(lo, hi, settings.curveSpiralIncrement);
      if found.Err? {
        return Err(ZeroIncrement);
      }
      stations := stations + found.value;
    }
    return Ok(stations);
  }

  /** Extending the visited items by one adds that item's stations. */
  lemma GeometryStationsStep(geometry: seq<Geometry>, k: nat, settings: GuideSettings)
    requires k < |geometry|
    requires !HasZeroDivision(geometry[..k], settings) && !DividesByZero(geometry[k], settings)
    ensures !HasZeroDivision(geometry[..k + 1], settings)
    ensures GeometryStations(geometry[..k + 1], settings) ==
      GeometryStations(geometry[..k], settings) + SegmentStations(geometry[k], settings)
  {
    var upto := geometry[..k + 1];
    assert upto[..k] == geometry[..k];
    forall j | 0 <= j < k + 1 ensures !DividesByZero(upto[j], settings) {
      if j < k {
        assert upto[j] == geometry[..k][j];
      }
    }
  }

  /**
   * The candidate stations of an alignment, built item after item; an item
   * whose increment is zero while its range is not empty stops the build
   * with a division by zero.
   */
  method CandidateStations(geometry: seq<Geometry>, settings: GuideSettings, end: real)
    returns (r: Result<seq<real>, GuideError>)
    ensures r.Err? <==> HasZeroDivision(geometry, settings)
    ensures r.Err? ==> r.error == ZeroIncrement
    ensures r.Ok? ==> r.value == Candidates(geometry, settings, end)
  {
    var stations: seq<real> := [];
    var k := 0;
    while k < |geometry|
      invariant 0 <= k <= |geometry|
      invariant !HasZeroDivision(geometry[..k], settings)
      invariant stations == GeometryStations(geometry[..k], settings)
    {
      var found := SegmentCandidates(geometry[k], settings);
      if found.Err? {
        return Err(ZeroIncrement);
      }
      GeometryStationsStep(geometry, k, settings);
      stations := stations + found.value;
      k := k + 1;
    }
    assert geometry[..k] == geometry;
    // the end station, rounded to three decimals, is always a candidate
    return Ok(stations + [Round3(end)]);
  }

  /** The stations inside [first, last], kept in their order by one pass. */
  method FilterStations(stations: seq<real>, first: real, last: real) returns (result: seq<real>)
    ensures result == Filter(stations, first, last)
  {
    result := [];
    var j := 0;
    while j < |stations|
      invariant 0 <= j <= |stations|
      invariant result == Filter(stations[..j], first, last)
    {
      assert stations[..j + 1][..j] == stations[..j];
      assert stations[..j + 1][j] == stations[j];
      if first <= stations[j] <= last {
        result := result + [stations[j]];
      }
      j := j + 1;
    }
    assert stations[..j] == stations;
  }

  /**
   * The stations at which guide lines are drawn: none without a target
   * group, none without an alignment, none when the alignment's metadata
   * lacks its start station or length, none when an increment that is
   * needed is zero; otherwise the candidates inside the window, sorted.
   */
  method GuideStations(groupIndex: int, alignmentIndex: int, alignments: seq<Data>, settings: GuideSettings)
    returns (r: Result<seq<real>, GuideError>)
    requires 0 <= groupIndex ==> Selectable(alignmentIndex, alignments)
    ensures r == Err(NoGuideLineGroup) <==> groupIndex < 0
    ensures r == Err(NoAlignment) <==> 0 <= groupIndex && alignmentIndex < 0
    ensures r == Err(MissingStationData) <==> 0 <= groupIndex && IncompleteMeta(alignmentIndex, alignments)
    ensures r == Err(ZeroIncrement) <==>
      0 <= groupIndex && 0 <= alignmentIndex && !IncompleteMeta(alignmentIndex, alignments) &&
      HasZeroDivision(alignments[alignmentIndex].geometry, settings)
    ensures r.Ok? ==> (0 <= groupIndex && 0 <= alignmentIndex && !IncompleteMeta(alignmentIndex, alignments) &&
                       !HasZeroDivision(alignments[alignmentIndex].geometry, settings))
    ensures r.Ok? ==> Sorted(r.value)
    ensures r.Ok? ==> multiset(r.value) == multiset(Filter(
      Candidates(alignments[alignmentIndex].geometry, settings, AlignmentInfos(alignmentIndex, alignments).value.end),
      settings.firstStation, settings.lastStation))
    ensures r.Ok? ==> forall x :: x in r.value ==> settings.firstStation <= x <= settings.lastStation
    ensures r.Ok? ==> var end := Round3(AlignmentInfos(alignmentIndex, alignments).value.end);
      (end in r.value <==> settings.firstStation <= end <= settings.lastStation)
  {
    if groupIndex < 0 {
      return Err(NoGuideLineGroup);
    }
    var found := AlignmentInfos(alignmentIndex, alignments);
    if found.Err? {
      return Err(MissingStationData);
    }
    var info := found.value;
    if info.alignment.None? {
      return Err(NoAlignment);
    }
    var geometry := info.alignment.value.geometry;
    var candidates := CandidateStations(geometry, settings, info.end);
    if candidates.Err? {
      return Err(ZeroIncrement);
    }
    var result := FilterStations(candidates.value, settings.firstStation, settings.lastStation);
    var buffer := new real[|result|](i requires 0 <= i < |result| => result[i]);
    assert buffer[..] == result;
    SortInPlace(buffer);
    KeptStationsFacts(buffer[..], geometry, settings, info.end);
    return Ok(buffer[..]);
  }
}
