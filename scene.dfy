/** Values and objects of the scene graph that the scene scripts build:
    points, triangle faces, a geometry whose vertex and face lists grow in
    place, line pieces, meshes, and a container whose child list grows in
    place. Only the parts the scripts use are modelled. */
module Scene {

  /** A point in scene-world units. */
  datatype Vec3 = Vec3(x: real, y: real, z: real)

  /** A triangle given by three indices into a geometry's vertex list. */
  datatype Face3 = Face3(a: int, b: int, c: int)

  /** Every index of `f` names one of `n` vertices. */
  predicate FaceWithin(f: Face3, n: int)
  {
    0 <= f.a < n && 0 <= f.b < n && 0 <= f.c < n
  }

  /** Every face indexes an existing vertex. */
  predicate WellFormed(vertices: seq<Vec3>, faces: seq<Face3>)
  {
    forall f :: f in faces ==> FaceWithin(f, |vertices|)
  }

  /** A geometry: a vertex list and a face list, both appended to in place. */
  class Geometry {
    var vertices: seq<Vec3>
    var faces: seq<Face3>

    constructor ()
      ensures vertices == [] && faces == []
    {
      vertices := [];
      faces := [];
    }

    /** `geometry.vertices.push(v)` */
    method PushVertex(v: Vec3)
      modifies this
      ensures vertices == old(vertices) + [v]
      ensures faces == old(faces)
    {
      vertices := vertices + [v];
    }

    /** `geometry.faces.push(f)` */
    method PushFace(f: Face3)
      modifies this
      ensures faces == old(faces) + [f]
      ensures vertices == old(vertices)
    {
      faces := faces + [f];
    }
  }

  /** A line drawn as separate pieces (vertices 2k and 2k+1 are the ends of
      piece k), with its colour as a 24-bit RGB number. */
  datatype LinePieces = LinePieces(vertices: seq<Vec3>, color: int)

  /** A Lambert material of one colour. */
  datatype Material = Lambert(color: int)

  /** What a mesh draws: a library cylinder, or a geometry built by the
      scripts (shared by reference between meshes). */
  datatype Shape =
    | Cylinder(radiusTop: real, radiusBottom: real, height: real, radialSegments: nat)
    | Custom(geometry: Geometry)

  /** A mesh with its rotations about the x and z axes, kept in degrees. */
  datatype Mesh = Mesh(shape: Shape, material: Material, rotationX: int, rotationZ: int)

  /** A container object whose children are added in order. */
  class Object3D {
    var children: seq<Mesh>

    constructor ()
      ensures children == []
    {
      children := [];
    }

    /** `object.add(m)` */
    method Add(m: Mesh)
      modifies this
      ensures children == old(children) + [m]
    {
      children := children + [m];
    }
  }
}
