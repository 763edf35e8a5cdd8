/** The windmill scene's builders: the floor grid with its default
    arguments, the table of one blade's vertices and faces, and the blades
    object (a hub followed by three blades 120 degrees apart). Angles are
    kept in whole degrees; the conversion to radians is not modelled. */
module Windmills {
  import opened Scene
  import Grid

  /** An argument that may be missing (`undefined`). */
  datatype Option<T> = None | Some(value: T)

  const DefaultLines: int := 20
  const DefaultSteps: int := 2
  const DefaultGridColor: int := 0xFFFFFF

  /** A numeric argument JavaScript treats as false: missing, or zero. */
  predicate Falsy(arg: Option<int>)
  {
    arg == None || arg == Some(0)
  }

  /** `arg || fallback` on a numeric argument. */
  function OrDefault(arg: Option<int>, fallback: int): (r: int)
    ensures Falsy(arg) ==> r == fallback
    ensures !Falsy(arg) ==> r == arg.value
    ensures fallback != 0 ==> r != 0
  {
    if Falsy(arg) then fallback else arg.value
  }

  /** `basicFloorGrid(lines, steps, gridColor)`: resolves the defaults, runs
      the grid loop on a fresh geometry and wraps it as line pieces. The loop
      only ends when the resolved step is positive or the extent is empty. */
  method BasicFloorGrid(lines: Option<int>, steps: Option<int>, gridColor: Option<int>)
    returns (grid: LinePieces)
    requires OrDefault(lines, DefaultLines) < 0 || OrDefault(steps, DefaultSteps) > 0
    ensures grid.color == OrDefault(gridColor, DefaultGridColor)
    ensures grid.vertices == Grid.GridVertices(OrDefault(lines, DefaultLines), OrDefault(steps, DefaultSteps))
    ensures forall v :: v in grid.vertices ==> Grid.OnFloor(v, OrDefault(lines, DefaultLines))
    ensures OrDefault(lines, DefaultLines) < 0 ==> grid.vertices == []
    ensures OrDefault(lines, DefaultLines) >= 0 ==>
              |grid.vertices| == 4 * ((2 * OrDefault(lines, DefaultLines)) / OrDefault(steps, DefaultSteps) + 1)
  {
    var n := OrDefault(lines, DefaultLines);
    var s := OrDefault(steps, DefaultSteps);
    var color := OrDefault(gridColor, DefaultGridColor);
    var floorGrid := new Geometry();
    Grid.AppendGrid(floorGrid, n, s);
    if s > 0 {
      Grid.GridVerticesCount(n, s);
    }
    grid := LinePieces(floorGrid.vertices, color);
  }

  /** The seven vertices of one blade: the tip, four points around the
      blade's widest section and two points at its root. */
  function BladeVertices(): seq<Vec3>
  {
    [ Vec3(0.0, 15.0, 0.0),
      Vec3(-1.0, 2.5, 0.0),
      Vec3(1.0, 2.5, 0.0),
      Vec3(0.0, 2.5, 0.5),
      Vec3(0.0, 2.5, -0.5),
      Vec3(-0.3, 0.3, 0.0),
      Vec3(0.3, 0.3, 0.0) ]
  }

  /** The ten triangles of one blade, as indices into BladeVertices(). */
  function BladeFaces(): seq<Face3>
  {
    [ Face3(3, 0, 1), Face3(2, 0, 3), Face3(1, 0, 4), Face3(4, 0, 2),
      Face3(5, 3, 1), Face3(6, 2, 3), Face3(6, 3, 5), Face3(6, 4, 2),
      Face3(5, 1, 4), Face3(5, 4, 6) ]
  }

  /** The blade table has 7 vertices and 10 faces, and every face index is in 0..6. */
  lemma BladeTableWellFormed()
    ensures |BladeVertices()| == 7 && |BladeFaces()| == 10
    ensures forall f :: f in BladeFaces() ==> FaceWithin(f, 7)
    ensures WellFormed(BladeVertices(), BladeFaces())
  {
  }

  /** `bladeGeometry()`: pushes the blade's vertices, then its faces, onto a
      fresh geometry. */
  method BladeGeometry() returns (geometry: Geometry)
    ensures fresh(geometry)
    ensures geometry.vertices == BladeVertices()
    ensures geometry.faces == BladeFaces()
    ensures WellFormed(geometry.vertices, geometry.faces)
  {
    geometry := new Geometry();
    geometry.PushVertex(Vec3(0.0, 15.0, 0.0));
    geometry.PushVertex(Vec3(-1.0, 2.5, 0.0));
    geometry.PushVertex(Vec3(1.0, 2.5, 0.0));
    geometry.PushVertex(Vec3(0.0, 2.5, 0.5));
    geometry.PushVertex(Vec3(0.0, 2.5, -0.5));
    geometry.PushVertex(Vec3(-0.3, 0.3, 0.0));
    geometry.PushVertex(Vec3(0.3, 0.3, 0.0));
    assert geometry.vertices == BladeVertices();
    geometry.PushFace(Face3(3, 0, 1));
    geometry.PushFace(Face3(2, 0, 3));
    geometry.PushFace(Face3(1, 0, 4));
    geometry.PushFace(Face3(4, 0, 2));
    geometry.PushFace(Face3(5, 3, 1));
    geometry.PushFace(Face3(6, 2, 3));
    geometry.PushFace(Face3(6, 3, 5));
    geometry.PushFace(Face3(6, 4, 2));
    geometry.PushFace(Face3(5, 1, 4));
    geometry.PushFace(Face3(5, 4, 6));
    assert geometry.faces == BladeFaces();
    BladeTableWellFormed();
  }

  /** The hub: a unit cylinder with 16 segments, turned 90 degrees about x. */
  function HubMesh(material: Material): Mesh
  {
    Mesh(Cylinder(1.0, 1.0, 1.0, 16), material, 90, 0)
  }

  /** A blade drawing the shared blade geometry, turned `angle` degrees about z. */
  function BladeMesh(geometry: Geometry, material: Material, angle: int): Mesh
  {
    Mesh(Custom(geometry), material, 0, angle)
  }

  /** `windmillBladesObject3D(material)`: adds the hub, then three blades
      sharing one blade geometry, the rotation angle growing by 120 each time. */
  method WindmillBladesObject3D(material: Material) returns (blades: Object3D)
    ensures fresh(blades)
    ensures |blades.children| == 4
    ensures blades.children[0] == HubMesh(material)
    ensures blades.children[1].shape.Custom?
    ensures var g := blades.children[1].shape.geometry;
      && fresh(g)
      && g.vertices == BladeVertices() && g.faces == BladeFaces()
      && blades.children[1..] == [BladeMesh(g, material, 0), BladeMesh(g, material, 120), BladeMesh(g, material, 240)]
  {
    blades := new Object3D();
    var hub := Mesh(Cylinder(1.0, 1.0, 1.0, 16), material, 90, 0);
    blades.Add(hub);
    var blade := BladeGeometry();
    var rotationAngle := 0;
    for i := 0 to 3
      invariant rotationAngle == 120 * i
      invariant blades.children == [hub] + seq(i, k => BladeMesh(blade, material, 120 * k))
      invariant blade.vertices == BladeVertices() && blade.faces == BladeFaces()
    {
      blades.Add(Mesh(Custom(blade), material, 0, rotationAngle));
      rotationAngle := rotationAngle + 120;
    }
  }
}
