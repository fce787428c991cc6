/**
 * What the pipeline puts into a scene: polylines, a group of polylines, and
 * lathed meshes. The renderer is not modelled; a mesh is an object that
 * remembers what it was built from.
 */
module Scene {
  import opened Sampling
  import opened Profiles

  /** A colour as its 24-bit hexadecimal value. */
  type Color = nat

  /** The axis a lathe is turned about: about X the mesh is rotated by -pi/2 about z. */
  datatype Axis = AboutX | AboutY

  datatype Shape =
    /** `new THREE.Line(geometry of points, LineBasicMaterial(color))`. */
    | Polyline(points: seq<Sample>, color: Color)
    /** `new THREE.Group()` holding lines; a group owns no geometry or material of its own. */
    | Group(lines: seq<Mesh>)
    /** `new THREE.Mesh(new THREE.LatheGeometry(profile, segments), MeshPhongMaterial(color))`. */
    | Lathe(profile: seq<Vec2>, segments: nat, color: Color, axis: Axis)

  /** A scene object: a fresh one per `new`, so distinct meshes are distinct objects. */
  class Mesh {
    const shape: Shape

    constructor (shape: Shape)
      ensures this.shape == shape
    {
      this.shape := shape;
    }
  }

  function Shapes(ms: seq<Mesh>): seq<Shape> {
    seq(|ms|, i requires 0 <= i < |ms| => ms[i].shape)
  }

  lemma ShapesAppend(ms: seq<Mesh>, m: Mesh)
    ensures Shapes(ms + [m]) == Shapes(ms) + [m.shape]
  {
  }

  function Elements(ms: seq<Mesh>): set<Mesh> {
    set m | m in ms
  }

  /**
   * The objects whose geometry and material must be disposed to release
   * `m`: the mesh itself, or, for a group, each of its lines.
   */
  function Geometries(m: Mesh): set<Mesh> {
    if m.shape.Group? then Elements(m.shape.lines) else {m}
  }

  /**
   * What `m.geometry?.dispose(); m.material?.dispose()` reaches: the mesh's
   * own geometry and material, and nothing for a group, which has neither.
   * For a line or a lathe that is everything the mesh owns; for a group it
   * is none of what its lines own.
   */
  function DisposedBySource(m: Mesh): (r: set<Mesh>)
    ensures r <= Geometries(m)
    ensures !m.shape.Group? ==> r == Geometries(m)
    ensures m.shape.Group? ==> r !! Geometries(m)
  {
    if m.shape.Group? then {} else {m}
  }
}
