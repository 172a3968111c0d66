/**
 * The curve-to-edge index of an alignment, as a specification.
 *
 * For every geometry item that is not a tangent line, the index lists the
 * polyline edges that draw it: the run of edges that begins at the first edge
 * whose first vertex lies on the curve's start point and ends at the first
 * edge of that run whose last vertex lies on the curve's end point (or at the
 * last edge, when none does). The index is keyed by the curve's hash, and
 * each run is keyed by the 1-based number of the edge ("Edge1", "Edge2", ...).
 *
 * The tolerance test that decides whether two points coincide is a parameter
 * `near`.
 */
module CurveEdges {
  import opened Wrappers
  import opened AlignmentData

  /** The index of the first edge at or after `i` whose first vertex is near `start`. */
  function StartIndex(start: Point, edges: seq<Edge>, near: (Point, Point) -> bool, i: nat): (r: Option<nat>)
    requires i <= |edges|
    ensures r.Some? ==> i <= r.value < |edges| && near(start, edges[r.value].first)
    ensures r.Some? ==> forall j :: i <= j < r.value ==> !near(start, edges[j].first)
    ensures r.None? ==> forall j :: i <= j < |edges| ==> !near(start, edges[j].first)
    decreases |edges| - i
  {
    if i == |edges| then None
    else if near(start, edges[i].first) then Some(i)
    else StartIndex(start, edges, near, i + 1)
  }

  /**
   * The index of the first edge at or after `i` whose last vertex is near
   * `end`, or the index of the last edge when there is none.
   */
  function EndIndex(end: Point, edges: seq<Edge>, near: (Point, Point) -> bool, i: nat): (r: nat)
    requires i < |edges|
    ensures i <= r < |edges|
    ensures near(end, edges[r].last) || r == |edges| - 1
    ensures forall j :: i <= j < r ==> !near(end, edges[j].last)
    decreases |edges| - i
  {
    if near(end, edges[i].last) || i == |edges| - 1 then i
    else EndIndex(end, edges, near, i + 1)
  }

  /** The first edge starting near `start` is the one the scan finds. */
  lemma StartIndexIsFirst(start: Point, edges: seq<Edge>, near: (Point, Point) -> bool, s: nat)
    requires s < |edges| && near(start, edges[s].first)
    requires forall j :: 0 <= j < s ==> !near(start, edges[j].first)
    ensures StartIndex(start, edges, near, 0) == Some(s)
  {
  }

  /** The first edge from `s` on ending near `end` is the one the scan finds. */
  lemma EndIndexIsFirst(end: Point, edges: seq<Edge>, near: (Point, Point) -> bool, s: nat, e: nat)
    requires s <= e < |edges| && (near(end, edges[e].last) || e == |edges| - 1)
    requires forall j :: s <= j < e ==> !near(end, edges[j].last)
    ensures EndIndex(end, edges, near, s) == e
  {
  }

  /**
   * The edges edges[lo..hi+1], keyed by their 1-based numbers lo+1 .. hi+1,
   * collected one edge at a time as the source's scan does.
   */
  function NumberedRun(edges: seq<Edge>, lo: nat, hi: nat): (r: map<nat, Edge>)
    requires lo <= hi < |edges|
    ensures forall k :: k in r <==> lo < k <= hi + 1
    ensures forall k :: k in r ==> r[k] == edges[k - 1]
    decreases hi - lo
  {
    if hi == lo then map[lo + 1 := edges[lo]]
    else NumberedRun(edges, lo, hi - 1)[hi + 1 := edges[hi]]
  }

  /** The edges that draw `curve`, keyed by their 1-based edge number. */
  function EdgeRun(curve: Geometry, edges: seq<Edge>, near: (Point, Point) -> bool): (r: map<nat, Edge>)
    ensures forall k :: k in r ==> 0 < k <= |edges| && r[k] == edges[k - 1]
  {
    match StartIndex(curve.start, edges, near, 0)
    case None => map[]
    case Some(s) => NumberedRun(edges, s, EndIndex(curve.end, edges, near, s))
  }

  /**
   * The curve-to-edge index of the geometry items `curves`, visited in order:
   * tangent lines are skipped and a later curve overwrites an earlier curve
   * with the same hash.
   */
  function CurveEdgeDict(curves: seq<Geometry>, edges: seq<Edge>, near: (Point, Point) -> bool): (r: map<Hash, map<nat, Edge>>)
    ensures forall h, k :: h in r && k in r[h] ==> 0 < k <= |edges| && r[h][k] == edges[k - 1]
  {
    if curves == [] then map[]
    else
      var index := CurveEdgeDict(curves[..|curves| - 1], edges, near);
      var curve := curves[|curves| - 1];
      if IsLine(curve) then index else index[curve.hash := EdgeRun(curve, edges, near)]
  }

  /**
   * A curve's run is empty exactly when no edge starts on the curve's start
   * point; otherwise it is a contiguous block of edge numbers whose first edge
   * is the first one starting on the curve's start point, whose last edge is
   * the first one after it that ends on the curve's end point (or the last
   * edge of the polyline), and no edge in between ends on the end point.
   */
  lemma EdgeRunShape(curve: Geometry, edges: seq<Edge>, near: (Point, Point) -> bool)
    ensures EdgeRun(curve, edges, near) == map[] <==> forall j :: 0 <= j < |edges| ==> !near(curve.start, edges[j].first)
    ensures EdgeRun(curve, edges, near) != map[] ==>
      exists s: nat, e: nat ::
        s <= e < |edges| &&
        EdgeRun(curve, edges, near) == NumberedRun(edges, s, e) &&
        near(curve.start, edges[s].first) &&
        (forall j :: 0 <= j < s ==> !near(curve.start, edges[j].first)) &&
        (near(curve.end, edges[e].last) || e == |edges| - 1) &&
        (forall j :: s <= j < e ==> !near(curve.end, edges[j].last))
  {
    match StartIndex(curve.start, edges, near, 0)
    case None =>
    case Some(s) =>
      var e := EndIndex(curve.end, edges, near, s);
      assert (s + 1) in NumberedRun(edges, s, e);
  }

  /** A hash is a key of the index exactly when some non-line item carries it. */
  lemma {:induction false} CurveEdgeDictKeys(curves: seq<Geometry>, edges: seq<Edge>, near: (Point, Point) -> bool, h: Hash)
    ensures h in CurveEdgeDict(curves, edges, near) <==>
      exists k :: 0 <= k < |curves| && !IsLine(curves[k]) && curves[k].hash == h
  {
    if curves != [] {
      var init := curves[..|curves| - 1];
      CurveEdgeDictKeys(init, edges, near, h);
      if exists k :: 0 <= k < |init| && !IsLine(init[k]) && init[k].hash == h {
        var k :| 0 <= k < |init| && !IsLine(init[k]) && init[k].hash == h;
        assert curves[k] == init[k];
      }
      if exists k :: 0 <= k < |curves| && !IsLine(curves[k]) && curves[k].hash == h {
        var k :| 0 <= k < |curves| && !IsLine(curves[k]) && curves[k].hash == h;
        if k < |init| {
          assert init[k] == curves[k];
        }
      }
    }
  }

  /**
   * The entry stored under a hash is the run of the LAST non-line item
   * carrying that hash: a later curve overwrites an earlier one.
   */
  lemma {:induction false} CurveEdgeDictLastWins(curves: seq<Geometry>, edges: seq<Edge>, near: (Point, Point) -> bool, k: nat)
    requires k < |curves| && !IsLine(curves[k])
    requires forall j :: k < j < |curves| && !IsLine(curves[j]) ==> curves[j].hash != curves[k].hash
    ensures curves[k].hash in CurveEdgeDict(curves, edges, near)
    ensures CurveEdgeDict(curves, edges, near)[curves[k].hash] == EdgeRun(curves[k], edges, near)
  {
    var n := |curves|;
    if k < n - 1 {
      var init := curves[..n - 1];
      assert init[k] == curves[k];
      forall j | k < j < |init| && !IsLine(init[j])
        ensures init[j].hash != init[k].hash
      {
        assert init[j] == curves[j];
      }
      CurveEdgeDictLastWins(init, edges, near, k);
    }
  }

  /** Decimal digits of a natural number, as Python's `str` writes it. */
  function Decimal(n: nat): (r: string)
    ensures |r| >= 1
    ensures forall i :: 0 <= i < |r| ==> '0' <= r[i] <= '9'
    ensures r[|r| - 1] == '0' + (n % 10) as char
    ensures n >= 10 <==> |r| >= 2
  {
    if n < 10 then ['0' + n as char]
    else Decimal(n / 10) + ['0' + (n % 10) as char]
  }

  /** The key the source gives to the edge with 1-based number `number`. */
  function EdgeKeyName(number: nat): (r: string)
    ensures |r| >= 5 && r[..4] == "Edge"
    ensures forall i :: 4 <= i < |r| ==> '0' <= r[i] <= '9'
    ensures r[|r| - 1] == '0' + (number % 10) as char
  {
    "Edge" + Decimal(number)
  }

  /** Distinct numbers have distinct decimal strings. */
  lemma {:induction false} DecimalInjective(a: nat, b: nat)
    requires Decimal(a) == Decimal(b)
    ensures a == b
  {
    if a >= 10 && b >= 10 {
      var da, db := Decimal(a / 10), Decimal(b / 10);
      assert Decimal(a) == da + ['0' + (a % 10) as char];
      assert Decimal(b) == db + ['0' + (b % 10) as char];
      assert da == Decimal(a)[..|Decimal(a)| - 1];
      assert db == Decimal(b)[..|Decimal(b)| - 1];
      DecimalInjective(a / 10, b / 10);
    }
  }

  /** Numbering keys by their edge number loses nothing: the names are distinct too. */
  lemma EdgeKeyNameInjective(a: nat, b: nat)
    requires EdgeKeyName(a) == EdgeKeyName(b)
    ensures a == b
  {
    assert Decimal(a) == EdgeKeyName(a)[4..];
    assert Decimal(b) == EdgeKeyName(b)[4..];
    DecimalInjective(a, b);
  }
}
