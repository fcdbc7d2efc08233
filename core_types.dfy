/** The 3MF document model shared by both generations of the library: a model
    part holds resources (objects, base materials), metadata and a build.
    Mirrors the structs of src/core (model, object, mesh, beamlattice,
    triangle_set, component, build, resources, metadata) and the
    boolean-shape extension of threemf2/src/core.  Rust's `usize` becomes `nat`;
    single-field XML wrapper structs (`Vertices`, `Triangles`, `Beams`,
    `Balls`, `BeamSets`) become the sequence they wrap. */
module CoreTypes {
  import opened Wrappers
  import CoreEnums

  /** An IEEE-754 binary64 value kept as its bit pattern; the model never
      computes with it. */
  datatype Float = F64(bits: bv64)

  /** The 4x3 affine matrix of an item or component, as its twelve entries in
      row-major order. Parsing and formatting of its text form are not modelled. */
  datatype Transform = Transform(m: seq<Float>)

  datatype Vertex = Vertex(x: Float, y: Float, z: Float)

  datatype Triangle = Triangle(v1: nat, v2: nat, v3: nat,
                               p1: Option<nat>, p2: Option<nat>, p3: Option<nat>,
                               pid: Option<nat>)

  datatype TriangleRef = TriangleRef(index: nat)

  datatype TriangleRefRange = TriangleRefRange(startIndex: nat, endIndex: nat)

  datatype TriangleSet = TriangleSet(name: string, identifier: string,
                                     triangleRef: seq<TriangleRef>,
                                     triangleRefRange: seq<TriangleRefRange>)

  datatype TriangleSets = TriangleSets(triangleSets: seq<TriangleSet>)

  datatype Beam = Beam(v1: nat, v2: nat, r1: Option<Float>, r2: Option<Float>,
                       p1: Option<nat>, p2: Option<nat>, pid: Option<nat>,
                       cap1: Option<CoreEnums.CapMode>, cap2: Option<CoreEnums.CapMode>)

  datatype Ball = Ball(vindex: nat, r: Option<Float>, p: Option<nat>, pid: Option<nat>)

  datatype BeamRef = BeamRef(index: nat)

  datatype BallRef = BallRef(index: nat)

  datatype BeamSet = BeamSet(name: Option<string>, identifier: Option<string>,
                             refs: seq<BeamRef>, ballRef: seq<BallRef>)

  datatype BeamLattice = BeamLattice(
    minLength: Float,
    radius: Float,
    ballMode: Option<CoreEnums.BallMode>,
    ballRadius: Option<Float>,
    clippingMode: Option<CoreEnums.ClippingMode>,
    clippingMesh: Option<nat>,
    representationMesh: Option<nat>,
    pid: Option<nat>,
    pindex: Option<nat>,
    cap: Option<CoreEnums.CapMode>,
    beams: seq<Beam>,
    balls: Option<seq<Ball>>,
    beamSets: Option<seq<BeamSet>>)

  datatype Mesh = Mesh(vertices: seq<Vertex>, triangles: seq<Triangle>,
                       triangleSets: Option<TriangleSets>,
                       beamLattice: Option<BeamLattice>)

  datatype Component = Component(objectId: nat, transform: Option<Transform>,
                                 path: Option<string>, uuid: Option<string>)

  datatype Components = Components(component: seq<Component>)

  datatype BooleanRef = BooleanRef(objectId: nat, transform: Option<Transform>, path: Option<string>)

  datatype BooleanShape = BooleanShape(objectId: nat, operation: Option<CoreEnums.BooleanOperation>,
                                       transform: Option<Transform>, path: Option<string>,
                                       boolean: seq<BooleanRef>)

  datatype Object = Object(
    id: nat,
    objectType: Option<CoreEnums.ObjectType>,
    thumbnail: Option<string>,
    partNumber: Option<string>,
    name: Option<string>,
    pid: Option<nat>,
    pindex: Option<nat>,
    uuid: Option<string>,
    mesh: Option<Mesh>,
    components: Option<Components>,
    booleanShape: Option<BooleanShape>)

  datatype Base = Base(name: string, displayColor: string)

  datatype BaseMaterials = BaseMaterials(id: nat, base: seq<Base>)

  datatype Resources = Resources(objects: seq<Object>, baseMaterials: seq<BaseMaterials>)

  datatype Item = Item(objectId: nat, transform: Option<Transform>, partNumber: Option<string>,
                       path: Option<string>, uuid: Option<string>)

  datatype Build = Build(uuid: Option<string>, item: seq<Item>)

  datatype Preserve = Preserve(mustPreserve: bool)

  datatype Metadata = Metadata(name: string, preserve: Option<Preserve>, value: Option<string>)

  datatype Model = Model(
    unit: Option<CoreEnums.Unit>,
    requiredExtensions: Option<string>,
    recommendedExtensions: Option<string>,
    metadata: seq<Metadata>,
    resources: Resources,
    build: Build)

  /** An XML namespace declaration: an optional prefix and a URI. */
  datatype XmlNamespace = XmlNamespace(prefix: Option<string>, uri: string)

  /** A decoded raster image (`image::DynamicImage`); its pixels are opaque. */
  datatype Image = Image(pixels: seq<bv8>)
}
