/**
 * The alignment object: a host document object (its properties), the
 * alignment proxy that owns the alignment model, the curve-to-edge index
 * built from the model's geometry, the lookups over that geometry, the
 * rebuild of the model from edited curves, and the guard that keeps the
 * change and recompute callbacks quiet while the object is being built.
 */
module HorizontalAlignment {
  import opened Wrappers
  import opened AlignmentData
  import opened CurveEdges

  /** The object properties that the alignment's metadata can set. */
  datatype Properties = Properties(
    id: string,
    description: string,
    objectId: string,
    length: real,
    status: string,
    startStation: real)

  /**
   * The host document object behind an alignment: the properties the
   * alignment registers, and the polyline (points and edges) the host derives
   * from them.
   */
  class HostObject {
    const name: string
    var objLabel: string
    var closed: bool
    var id: string
    var oid: string
    var description: string
    var objectId: string
    var length: real
    var status: string
    var startStation: real
    var subdivision: string
    var segValue: real
    var points: seq<Point>
    var edges: seq<Edge>

    /** The properties that metadata assignment may overwrite. */
    function Props(): Properties
      reads this
    {
      Properties(id, description, objectId, length, status, startStation)
    }
  }

  /**
   * The properties after copying in `meta`: a property is overwritten only by
   * a present, truthy metadata value (a non-empty text, a non-zero number),
   * and every other property keeps its value.
   */
  function ApplyMeta(p: Properties, meta: Meta): (r: Properties)
    ensures TruthyText(meta.id) ==> r.id == meta.id.value
    ensures !TruthyText(meta.id) ==> r.id == p.id
    ensures TruthyText(meta.description) ==> r.description == meta.description.value
    ensures !TruthyText(meta.description) ==> r.description == p.description
    ensures TruthyText(meta.objectId) ==> r.objectId == meta.objectId.value
    ensures !TruthyText(meta.objectId) ==> r.objectId == p.objectId
    ensures TruthyNumber(meta.length) ==> r.length == meta.length.value
    ensures !TruthyNumber(meta.length) ==> r.length == p.length
    ensures TruthyText(meta.status) ==> r.status == meta.status.value
    ensures !TruthyText(meta.status) ==> r.status == p.status
    ensures TruthyNumber(meta.startStation) ==> r.startStation == meta.startStation.value
    ensures !TruthyNumber(meta.startStation) ==> r.startStation == p.startStation
  {
    var p1 := if TruthyText(meta.id) then p.(id := meta.id.value) else p;
    var p2 := if TruthyText(meta.description) then p1.(description := meta.description.value) else p1;
    var p3 := if TruthyText(meta.objectId) then p2.(objectId := meta.objectId.value) else p2;
    var p4 := if TruthyNumber(meta.length) then p3.(length := meta.length.value) else p3;
    var p5 := if TruthyText(meta.status) then p4.(status := meta.status.value) else p4;
    if TruthyNumber(meta.startStation) then p5.(startStation := meta.startStation.value) else p5
  }

  /** Copying the same metadata twice changes nothing the first copy did not. */
  lemma ApplyMetaIdempotent(p: Properties, meta: Meta)
    ensures ApplyMeta(ApplyMeta(p, meta), meta) == ApplyMeta(p, meta)
  {
  }

  /** Python's `int(x)` on a float: truncation toward zero. */
  function TruncateTowardZero(x: real): (r: int)
    ensures 0.0 <= x ==> 0 <= r && r as real <= x < r as real + 1.0
    ensures x < 0.0 ==> r <= 0 && r as real - 1.0 < x <= r as real
  {
    if 0.0 <= x then x.Floor else -((-x).Floor)
  }

  /** The segment value the 'Tolerance' subdivision method starts with. */
  function ToleranceSegValue(scale: real): (r: real)
    requires scale != 0.0
    ensures r * 100.0 == (r * 100.0).Floor as real
    ensures 0.0 < scale ==> 0.0 <= r && r <= 10.0 / scale < r + 0.01
  {
    TruncateTowardZero(1000.0 / scale) as real / 100.0
  }

  /** The segment value the 'Interval' subdivision method starts with. */
  function IntervalSegValue(scale: real): (r: real)
    requires scale != 0.0
    ensures r == r.Floor as real
    ensures 0.0 < scale ==> 0.0 <= r && r <= 3000.0 / scale < r + 1.0
  {
    TruncateTowardZero(3000.0 / scale) as real
  }

  /** The segment value the 'Segment' subdivision method starts with. */
  const SegmentSegValue: real := 200.0

  /**
   * The segment value after the subdivision method changes to `subdivision`:
   * each known method resets it to its own default, any other value keeps it.
   */
  function SegValueFor(subdivision: string, scale: real, current: real): (r: real)
    requires scale != 0.0
    ensures subdivision == "Interval" && 0.0 < scale ==> r == r.Floor as real && 0.0 <= r <= 3000.0 / scale < r + 1.0
    ensures subdivision == "Segment" ==> r == 200.0
    ensures subdivision == "Tolerance" ==> r * 100.0 == (r * 100.0).Floor as real
    ensures subdivision == "Tolerance" && 0.0 < scale ==> 0.0 <= r <= 10.0 / scale < r + 0.01
    ensures subdivision != "Interval" && subdivision != "Segment" && subdivision != "Tolerance" ==> r == current
  {
    if subdivision == "Interval" then IntervalSegValue(scale)
    else if subdivision == "Segment" then SegmentSegValue
    else if subdivision == "Tolerance" then ToleranceSegValue(scale)
    else current
  }

  /** The geometry items that are not tangent lines, in their original order. */
  function Curves(geometry: seq<Geometry>): (r: seq<Geometry>)
    ensures forall g :: g in r <==> g in geometry && !IsLine(g)
    ensures |r| <= |geometry|
  {
    if geometry == [] then []
    else (if IsLine(geometry[0]) then [] else [geometry[0]]) + Curves(geometry[1..])
  }

  /**
   * Filtering distributes over concatenation; with the one-item case this
   * pins `Curves` down: it keeps the curves and keeps their order.
   */
  lemma {:induction false} CurvesAppend(a: seq<Geometry>, b: seq<Geometry>)
    ensures Curves(a + b) == Curves(a) + Curves(b)
  {
    if a != [] {
      assert (a + b)[0] == a[0];
      assert (a + b)[1..] == a[1..] + b;
      CurvesAppend(a[1..], b);
    } else {
      assert a + b == b;
    }
  }

  /** A single item is kept exactly when it is not a tangent line. */
  lemma CurvesSingle(g: Geometry)
    ensures Curves([g]) == if IsLine(g) then [] else [g]
  {
    assert [g][1..] == [];
  }

  /** The index of the first item at or after `i` whose hash is `h`. */
  function FirstWithHash(geometry: seq<Geometry>, h: Hash, i: nat): (r: Option<nat>)
    requires i <= |geometry|
    ensures r.Some? ==> i <= r.value < |geometry| && geometry[r.value].hash == h
    ensures r.Some? ==> forall j :: i <= j < r.value ==> geometry[j].hash != h
    ensures r.None? ==> forall j :: i <= j < |geometry| ==> geometry[j].hash != h
    decreases |geometry| - i
  {
    if i == |geometry| then None
    else if geometry[i].hash == h then Some(i)
    else FirstWithHash(geometry, h, i + 1)
  }

  /** What a geometry lookup answers. */
  datatype GeometryQuery = AllGeometry(items: seq<Geometry>) | Match(item: Geometry) | NoMatch

  /**
   * Geometry lookup by hash: a missing or empty hash answers all of the
   * geometry; otherwise the first item carrying the hash, or nothing.
   */
  function FindGeometry(geometry: seq<Geometry>, hash: Option<Hash>): (r: GeometryQuery)
    ensures !TruthyText(hash) <==> r == AllGeometry(geometry)
    ensures TruthyText(hash) ==> (r.NoMatch? <==> forall i :: 0 <= i < |geometry| ==> geometry[i].hash != hash.value)
    ensures r.Match? ==> exists i :: 0 <= i < |geometry| && geometry[i] == r.item && geometry[i].hash == hash.value &&
                                   forall j :: 0 <= j < i ==> geometry[j].hash != hash.value
  {
    if !TruthyText(hash) then AllGeometry(geometry)
    else match FirstWithHash(geometry, hash.value, 0)
      case None => NoMatch
      case Some(i) => Match(geometry[i])
  }

  /**
   * The data set rebuilt from edited curves and the list of PI points: its
   * metadata holds only the first PI as Start, the last PI as End and the
   * previous StartStation; the geometry is the given curves and the station
   * equations are carried over. An empty PI list has no first item, which
   * the source answers with an index error (`None` here).
   */
  function UpdatedData(previous: Data, curves: seq<Geometry>, piList: seq<Point>): (r: Option<Data>)
    ensures r.None? <==> piList == []
    ensures r.Some? ==> r.value.meta.start == Some(piList[0]) && r.value.meta.end == Some(piList[|piList| - 1])
    ensures r.Some? ==> r.value.meta.startStation == previous.meta.startStation
    ensures r.Some? ==> r.value.geometry == curves && r.value.station == previous.station
    ensures r.Some? ==> (r.value.meta.id.None? && r.value.meta.description.None? && r.value.meta.objectId.None? &&
                         r.value.meta.length.None? && r.value.meta.status.None?)
  {
    if piList == [] then None
    else Some(Data(
      Meta(None, None, None, None, None, previous.meta.startStation, Some(piList[0]), Some(piList[|piList| - 1])),
      curves,
      previous.station))
  }

  /** The run of edges that draws `curve`, found by one scan over the edge list. */
  method CollectCurveEdges(curve: Geometry, edges: seq<Edge>, near: (Point, Point) -> bool) returns (edgeDict: map<nat, Edge>)
    ensures edgeDict == EdgeRun(curve, edges, near)
  {
    edgeDict := map[];
    ghost var s: nat := 0;
    ghost var started := false;
    var i := 0;
    while i < |edges|
      invariant 0 <= i <= |edges|
      invariant !started ==> edgeDict == map[] && forall j :: 0 <= j < i ==> !near(curve.start, edges[j].first)
      invariant started ==> s < i && StartIndex(curve.start, edges, near, 0) == Some(s)
      invariant started ==> edgeDict == NumberedRun(edges, s, i - 1) && s + 1 in edgeDict
      invariant started ==> forall j :: s <= j < i ==> !near(curve.end, edges[j].last)
    {
      var edge := edges[i];
      // an empty run means the curve's start has not been found yet
      if edgeDict == map[] && !near(curve.start, edge.first) {
        i := i + 1;
      } else {
        if edgeDict == map[] {
          s, started := i, true;
          StartIndexIsFirst(curve.start, edges, near, s);
        }
        edgeDict := edgeDict[i + 1 := edge];
        assert edgeDict == NumberedRun(edges, s, i);
        if near(curve.end, edge.last) {
          EndIndexIsFirst(curve.end, edges, near, s, i);
          return;
        }
        i := i + 1;
      }
    }
    if started {
      EndIndexIsFirst(curve.end, edges, near, s, |edges| - 1);
    }
  }

  /**
   * The alignment proxy: it owns the alignment model, the curve-to-edge
   * index, and the host object whose properties it keeps in step.
   * `noExecute` stands for the attribute the source sets while the
   * constructor registers properties and deletes at its end.
   */
  class Alignment {
    const obj: HostObject
    var noExecute: bool
    var typeName: string
    var errors: seq<string>
    var curveEdges: Option<map<Hash, map<nat, Edge>>>
    var model: Option<Model>

    /**
     * Labels the object and registers the alignment's properties with their
     * defaults while the callbacks are switched off, then switches the
     * callbacks on.
     */
    constructor (obj: HostObject, newLabel: string, scale: real)
      requires scale != 0.0
      modifies obj
      ensures this.obj == obj && !noExecute
      ensures typeName == "Alignment" && errors == [] && model.None? && curveEdges.None?
      ensures obj.objLabel == (if newLabel == "" then obj.name else newLabel) && !obj.closed
      ensures obj.Props() == Properties("", "", old(obj.objectId), 0.0, "existing", 0.0) && obj.oid == ""
      ensures obj.subdivision == "Tolerance" && obj.segValue == ToleranceSegValue(scale)
      ensures obj.points == old(obj.points) && obj.edges == old(obj.edges)
    {
      this.obj := obj;
      noExecute := true;
      typeName := "Alignment";
      errors := [];
      curveEdges := None;
      model := None;
      new;
      obj.objLabel := newLabel;
      obj.closed := false;
      if newLabel == "" {
        obj.objLabel := obj.name;
      }
      AddProperties(scale);
      noExecute := false;
    }

    /**
     * Registers the alignment's properties with their defaults. The host
     * reports each change to the change callback, which ignores it while
     * `noExecute` is set: the subdivision method does not reset the segment
     * value here.
     */
    method AddProperties(scale: real)
      requires scale != 0.0 && noExecute
      modifies obj`id, obj`oid, obj`length, obj`description, obj`startStation, obj`status, obj`subdivision, obj`segValue
      ensures obj.Props() == Properties("", "", old(obj.objectId), 0.0, "existing", 0.0) && obj.oid == ""
      ensures obj.subdivision == "Tolerance" && obj.segValue == ToleranceSegValue(scale)
    {
      obj.id, obj.oid, obj.length, obj.description := "", "", 0.0, "";
      obj.startStation, obj.status := 0.0, "existing";
      obj.subdivision := "Tolerance";
      OnChanged("Method", scale);
      obj.segValue := ToleranceSegValue(scale);
      OnChanged("Seg_Value", scale);
    }

    /**
     * Builds the curve-to-edge index of the model's geometry over the host
     * object's edges and stores it.
     */
    method BuildCurveEdgeDict(near: (Point, Point) -> bool)
      requires model.Some?
      modifies this`curveEdges
      ensures curveEdges == Some(CurveEdgeDict(model.value.data.geometry, obj.edges, near))
    {
      var curveDict: map<Hash, map<nat, Edge>> := map[];
      var curves := model.value.data.geometry;
      var c := 0;
      while c < |curves|
        invariant 0 <= c <= |curves|
        invariant curveDict == CurveEdgeDict(curves[..c], obj.edges, near)
      {
        var curve := curves[c];
        assert curves[..c + 1][..c] == curves[..c];
        if !IsLine(curve) {
          var edgeDict := CollectCurveEdges(curve, obj.edges, near);
          curveDict := curveDict[curve.hash := edgeDict];
        }
        c := c + 1;
      }
      assert curves[..c] == curves;
      curveEdges := Some(curveDict);
    }

    /**
     * Copies every present, truthy metadata value of the model into the
     * matching object property; the other properties keep their values.
     */
    method AssignMetaData()
      requires model.Some?
      modifies obj`id, obj`description, obj`objectId, obj`length, obj`status, obj`startStation
      ensures obj.Props() == ApplyMeta(old(obj.Props()), model.value.data.meta)
    {
      var meta := model.value.data.meta;
      if TruthyText(meta.id) {
        obj.id := meta.id.value;
      }
      if TruthyText(meta.description) {
        obj.description := meta.description.value;
      }
      if TruthyText(meta.objectId) {
        obj.objectId := meta.objectId.value;
      }
      if TruthyNumber(meta.length) {
        obj.length := meta.length.value;
      }
      if TruthyText(meta.status) {
        obj.status := meta.status.value;
      }
      if TruthyNumber(meta.startStation) {
        obj.startStation := meta.startStation.value;
      }
    }

    /**
     * Builds a new model from `geometry`, reports and clears its errors,
     * copies its metadata into the object, and returns the (now empty) error
     * list.
     */
    method SetGeometry(geometry: Data, zeroReference: bool, construct: (Data, bool) -> Model) returns (errs: seq<string>)
      modifies this`model, obj`id, obj`description, obj`objectId, obj`length, obj`status, obj`startStation
      ensures model == Some(construct(geometry, zeroReference).(errors := []))
      ensures obj.Props() == ApplyMeta(old(obj.Props()), construct(geometry, zeroReference).data.meta)
      ensures errs == []
    {
      var built := construct(geometry, zeroReference);
      model := Some(built);
      if built.errors != [] {
        // each error is reported on the console before the list is cleared
        model := Some(built.(errors := []));
      }
      AssignMetaData();
      errs := model.value.errors;
    }

    /**
     * Replaces the model by one built from edited curves and PI points. An
     * empty PI list raises before anything changes (`ok` is false).
     */
    method UpdateCurves(curves: seq<Geometry>, piList: seq<Point>, zeroReference: bool, construct: (Data, bool) -> Model)
      returns (ok: bool)
      requires model.Some?
      modifies this`model, obj`id, obj`description, obj`objectId, obj`length, obj`status, obj`startStation
      ensures ok <==> piList != []
      ensures !ok ==> model == old(model) && obj.Props() == old(obj.Props())
      ensures ok ==> var data := UpdatedData(old(model.value.data), curves, piList).value;
        model == Some(construct(data, zeroReference).(errors := [])) &&
        obj.Props() == ApplyMeta(old(obj.Props()), construct(data, zeroReference).data.meta)
    {
      var data := UpdatedData(model.value.data, curves, piList);
      if data.None? {
        return false;
      }
      var _ := SetGeometry(data.value, zeroReference, construct);
      ok := true;
    }

    /**
     * Property change callback: a change of the subdivision method resets the
     * segment value to that method's default; nothing happens while the
     * object is being constructed.
     */
    method OnChanged(prop: string, scale: real)
      requires scale != 0.0
      modifies obj`segValue
      ensures noExecute || prop != "Method" ==> obj.segValue == old(obj.segValue)
      ensures !noExecute && prop == "Method" ==> obj.segValue == SegValueFor(obj.subdivision, scale, old(obj.segValue))
    {
      if noExecute {
        return;
      }
      if prop == "Method" {
        obj.segValue := SegValueFor(obj.subdivision, scale, obj.segValue);
      }
    }

    /**
     * Recompute callback: the object's points become the model's
     * discretisation, unless that is empty; nothing happens while the object
     * is being constructed.
     */
    method Execute(discretize: (Model, string, real) -> seq<Point>)
      requires !noExecute ==> model.Some?
      modifies obj`points
      ensures noExecute ==> obj.points == old(obj.points)
      ensures !noExecute ==> (var p := discretize(model.value, obj.subdivision, obj.segValue);
                              obj.points == if p == [] then old(obj.points) else p)
    {
      if noExecute {
        return;
      }
      var points := discretize(model.value, obj.subdivision, obj.segValue);
      if points == [] {
        return;
      }
      obj.points := points;
    }
  }
}
