/**
 * The records a horizontal alignment is made of: points, polyline edges,
 * geometry items (tangent lines, curves, spirals), the alignment's metadata
 * and the data set held by the alignment model.
 *
 * These are plain values: the dictionaries the Python code passes around
 * ('meta', 'geometry', 'station') become datatypes whose optional keys are
 * `Option` fields.
 */
module AlignmentData {
  import opened Wrappers

  /** A plane coordinate (a host vector). */
  datatype Point = Point(x: real, y: real)

  /** A polyline edge, given by its first and last vertex. */
  datatype Edge = Edge(first: Point, last: Point)

  /** The hash that identifies a geometry item. */
  type Hash = string

  /**
   * One geometry item of an alignment: its 'Type' ("Line", "Curve",
   * "Spiral", ...), its 'Hash', its 'Start' and 'End' points, its
   * 'StartStation' and its 'Length' (in the drawing's millimetres).
   */
  datatype Geometry = Geometry(
    kind: string,
    hash: Hash,
    start: Point,
    end: Point,
    startStation: real,
    length: real)

  /** A tangent line, as opposed to a curve or a spiral. */
  predicate IsLine(g: Geometry) {
    g.kind == "Line"
  }

  /** The alignment's 'meta' dictionary; an absent key is `None`. */
  datatype Meta = Meta(
    id: Option<string>,
    description: Option<string>,
    objectId: Option<string>,
    length: Option<real>,
    status: Option<string>,
    startStation: Option<real>,
    start: Option<Point>,
    end: Option<Point>)

  /** Station equations of the alignment; their contents are only carried along. */
  type StationData = seq<real>

  /** The data set of an alignment model: 'meta', 'geometry' and 'station'. */
  datatype Data = Data(meta: Meta, geometry: seq<Geometry>, station: Option<StationData>)

  /** An alignment model: its data set and the errors found while building it. */
  datatype Model = Model(data: Data, errors: seq<string>)

  /** Python truthiness of an optional string: present and non-empty. */
  predicate TruthyText(v: Option<string>) {
    v.Some? && v.value != ""
  }

  /** Python truthiness of an optional number: present and non-zero. */
  predicate TruthyNumber(v: Option<real>) {
    v.Some? && v.value != 0.0
  }
}
