/** The builders `ModelBuilder` hands to the caller's closures: object, mesh,
    components, component, item, triangle-set, beam-lattice, beam, ball and
    beam-set builders. Each is a value here; a closure that edits one through
    `&mut` becomes a function from the builder to the edited builder, and the
    fields the library keeps private (an object's id, the Production flag it
    was created with, the ids a components object may reference) are put back
    after the closure, since its public setters cannot reach them. */
module BuilderParts {
  import opened Wrappers
  import opened CoreTypes
  import CoreEnums

  // ---------------------------------------------------------------- errors

  datatype MeshObjectError = ObjectUuidNotSet

  datatype ComponentsObjectError =
    | ComponentUuidNotSet
    | PathSetWithoutProductionExtension
    | ObjectReferenceNotFoundForComponent
    | ObjectUuidNotSet

  datatype BuildError = BuildUuidNotSet

  datatype ItemError = ItemPathSetWithoutProductionExtension | ItemUuidNotSet

  // ------------------------------------------------------------- object

  /** `ObjectBuilder<T>`: the object attributes and the geometry builder `T`. */
  datatype ObjectBuilder<T> = ObjectBuilder(
    objectId: nat,
    objectType: Option<CoreEnums.ObjectType>,
    thumbnail: Option<string>,
    partNumber: Option<string>,
    name: Option<string>,
    pid: Option<nat>,
    pindex: Option<nat>,
    uuid: Option<string>,
    entity: T,
    isProductionExtRequired: bool)

  /** A fresh object builder: type Model, nothing else set. */
  function NewObjectBuilder<T>(objectId: nat, entity: T, isProductionExtRequired: bool): (b: ObjectBuilder<T>)
    ensures b.objectId == objectId && b.entity == entity && b.isProductionExtRequired == isProductionExtRequired
    ensures b.objectType == Some(CoreEnums.ObjectType.Model) && b.uuid.None? && b.name.None? && b.partNumber.None?
  {
    ObjectBuilder(objectId, Some(CoreEnums.ObjectType.Model), None, None, None, None, None, None, entity, isProductionExtRequired)
  }

  /** The object builder after a closure edited it: only what its public
      setters reach (type, name, part number, uuid, geometry) is taken over. */
  function AfterEdit<T>(before: ObjectBuilder<T>, edited: ObjectBuilder<T>): (b: ObjectBuilder<T>)
    ensures b.objectId == before.objectId && b.isProductionExtRequired == before.isProductionExtRequired
    ensures b.thumbnail == before.thumbnail && b.pid == before.pid && b.pindex == before.pindex
    ensures b.objectType == edited.objectType && b.name == edited.name && b.partNumber == edited.partNumber
    ensures b.uuid == edited.uuid && b.entity == edited.entity
  {
    edited.(objectId := before.objectId, thumbnail := before.thumbnail, pid := before.pid,
            pindex := before.pindex, isProductionExtRequired := before.isProductionExtRequired)
  }

  // ---------------------------------------------------------------- mesh

  datatype TriangleSetsBuilder = TriangleSetsBuilder(sets: seq<TriangleSet>)

  datatype BeamBuilder = BeamBuilder(v1: nat, v2: nat, r1: Option<Float>, r2: Option<Float>,
                                     p1: Option<nat>, p2: Option<nat>, pid: Option<nat>,
                                     cap1: Option<CoreEnums.CapMode>, cap2: Option<CoreEnums.CapMode>)

  datatype BallBuilder = BallBuilder(vindex: nat, r: Option<Float>, p: Option<nat>, pid: Option<nat>)

  datatype BeamSetBuilder = BeamSetBuilder(name: Option<string>, identifier: Option<string>,
                                           beamRefs: seq<nat>, ballRefs: seq<nat>)

  datatype BeamLatticeBuilder = BeamLatticeBuilder(
    minLength: Option<Float>,
    radius: Option<Float>,
    ballMode: Option<CoreEnums.BallMode>,
    ballRadius: Option<Float>,
    clippingMode: Option<CoreEnums.ClippingMode>,
    clippingMesh: Option<nat>,
    representationMesh: Option<nat>,
    pid: Option<nat>,
    pindex: Option<nat>,
    cap: Option<CoreEnums.CapMode>,
    beams: seq<Beam>,
    balls: seq<Ball>,
    beamSets: seq<BeamSet>)

  datatype MeshBuilder = MeshBuilder(vertices: seq<Vertex>, triangles: seq<Triangle>,
                                     triangleSets: Option<TriangleSetsBuilder>,
                                     beamLattice: Option<BeamLatticeBuilder>)

  type MeshObjectBuilder = ObjectBuilder<MeshBuilder>

  const EmptyMesh := MeshBuilder([], [], None, None)

  /** `add_vertex` */
  function AddVertex(b: MeshBuilder, coords: (Float, Float, Float)): (r: MeshBuilder)
    ensures r.(vertices := b.vertices) == b
    ensures |r.vertices| == |b.vertices| + 1 && r.vertices[..|b.vertices|] == b.vertices
    ensures r.vertices[|b.vertices|] == Vertex(coords.0, coords.1, coords.2)
  {
    b.(vertices := b.vertices + [Vertex(coords.0, coords.1, coords.2)])
  }

  /** The vertices with the given coordinates, in order. */
  function VerticesOf(coords: seq<(Float, Float, Float)>): (r: seq<Vertex>)
    ensures |r| == |coords|
    ensures forall i :: 0 <= i < |coords| ==> r[i] == Vertex(coords[i].0, coords[i].1, coords[i].2)
  {
    seq(|coords|, i requires 0 <= i < |coords| => Vertex(coords[i].0, coords[i].1, coords[i].2))
  }

  /** `add_vertices`: one vertex per coordinate triple, appended in order. */
  method AddVertices(b: MeshBuilder, coords: seq<(Float, Float, Float)>) returns (r: MeshBuilder)
    ensures r == b.(vertices := b.vertices + VerticesOf(coords))
  {
    r := b;
    for i := 0 to |coords|
      invariant r == b.(vertices := b.vertices + VerticesOf(coords[..i]))
    {
      assert VerticesOf(coords[..i + 1]) == VerticesOf(coords[..i]) + [Vertex(coords[i].0, coords[i].1, coords[i].2)];
      r := AddVertex(r, coords[i]);
    }
    assert coords[..|coords|] == coords;
  }

  /** The vertices of a flat coordinate list read three at a time; a
      trailing incomplete group is ignored (`chunks_exact`). */
  function FlatVertices(flat: seq<Float>): (r: seq<Vertex>)
    ensures |r| == |flat| / 3
    ensures forall i :: 0 <= i < |r| ==> r[i] == Vertex(flat[3 * i], flat[3 * i + 1], flat[3 * i + 2])
  {
    seq(|flat| / 3, i requires 0 <= i < |flat| / 3 => Vertex(flat[3 * i], flat[3 * i + 1], flat[3 * i + 2]))
  }

  /** `add_vertices_flat` */
  method AddVerticesFlat(b: MeshBuilder, flat: seq<Float>) returns (r: MeshBuilder)
    ensures r == b.(vertices := b.vertices + FlatVertices(flat))
  {
    var added: seq<Vertex> := [];
    var k := 0;
    while k < |flat| / 3
      invariant k <= |flat| / 3
      invariant added == FlatVertices(flat)[..k]
    {
      added := added + [Vertex(flat[3 * k], flat[3 * k + 1], flat[3 * k + 2])];
      k := k + 1;
    }
    assert FlatVertices(flat)[..k] == FlatVertices(flat);
    r := b.(vertices := b.vertices + added);
  }

  /** A triangle over three vertex indices, with no property indices. */
  function PlainTriangle(v1: nat, v2: nat, v3: nat): Triangle {
    Triangle(v1, v2, v3, None, None, None, None)
  }

  /** `add_triangle` */
  function AddTriangle(b: MeshBuilder, indices: (nat, nat, nat)): (r: MeshBuilder)
    ensures r.(triangles := b.triangles) == b
    ensures |r.triangles| == |b.triangles| + 1 && r.triangles[..|b.triangles|] == b.triangles
    ensures r.triangles[|b.triangles|] == PlainTriangle(indices.0, indices.1, indices.2)
  {
    b.(triangles := b.triangles + [PlainTriangle(indices.0, indices.1, indices.2)])
  }

  function TrianglesOf(indices: seq<(nat, nat, nat)>): (r: seq<Triangle>)
    ensures |r| == |indices|
    ensures forall i :: 0 <= i < |indices| ==> r[i] == PlainTriangle(indices[i].0, indices[i].1, indices[i].2)
  {
    seq(|indices|, i requires 0 <= i < |indices| => PlainTriangle(indices[i].0, indices[i].1, indices[i].2))
  }

  /** `add_triangles`: one triangle per index triple, appended in order. */
  method AddTriangles(b: MeshBuilder, indices: seq<(nat, nat, nat)>) returns (r: MeshBuilder)
    ensures r == b.(triangles := b.triangles + TrianglesOf(indices))
  {
    r := b;
    for i := 0 to |indices|
      invariant r == b.(triangles := b.triangles + TrianglesOf(indices[..i]))
    {
      assert TrianglesOf(indices[..i + 1]) == TrianglesOf(indices[..i]) + [PlainTriangle(indices[i].0, indices[i].1, indices[i].2)];
      r := AddTriangle(r, indices[i]);
    }
    assert indices[..|indices|] == indices;
  }

  function FlatTriangles(flat: seq<nat>): (r: seq<Triangle>)
    ensures |r| == |flat| / 3
    ensures forall i :: 0 <= i < |r| ==> r[i] == PlainTriangle(flat[3 * i], flat[3 * i + 1], flat[3 * i + 2])
  {
    seq(|flat| / 3, i requires 0 <= i < |flat| / 3 => PlainTriangle(flat[3 * i], flat[3 * i + 1], flat[3 * i + 2]))
  }

  /** `add_triangles_flat`: indices read three at a time, a trailing
      incomplete group ignored. */
  method AddTrianglesFlat(b: MeshBuilder, flat: seq<nat>) returns (r: MeshBuilder)
    ensures r == b.(triangles := b.triangles + FlatTriangles(flat))
  {
    var added: seq<Triangle> := [];
    var k := 0;
    while k < |flat| / 3
      invariant k <= |flat| / 3
      invariant added == FlatTriangles(flat)[..k]
    {
      added := added + [PlainTriangle(flat[3 * k], flat[3 * k + 1], flat[3 * k + 2])];
      k := k + 1;
    }
    assert FlatTriangles(flat)[..k] == FlatTriangles(flat);
    r := b.(triangles := b.triangles + added);
  }

  /** `add_triangle_sets`: the closure edits the mesh's triangle-set builder,
      created empty on first use. */
  function AddTriangleSets(b: MeshBuilder, f: TriangleSetsBuilder -> TriangleSetsBuilder): (r: MeshBuilder)
    ensures r.triangleSets == Some(f(b.triangleSets.UnwrapOr(TriangleSetsBuilder([]))))
    ensures r.(triangleSets := b.triangleSets) == b
  {
    match b.triangleSets
    case Some(builder) => b.(triangleSets := Some(f(builder)))
    case None => b.(triangleSets := Some(f(TriangleSetsBuilder([]))))
  }

  const EmptyLattice := BeamLatticeBuilder(None, None, None, None, None, None, None, None, None, None, [], [], [])

  /** `add_beam_lattice`: the closure edits the mesh's beam-lattice builder,
      created empty on first use. */
  function AddBeamLattice(b: MeshBuilder, f: BeamLatticeBuilder -> BeamLatticeBuilder): (r: MeshBuilder)
    ensures r.beamLattice == Some(f(b.beamLattice.UnwrapOr(EmptyLattice)))
    ensures r.(beamLattice := b.beamLattice) == b
  {
    match b.beamLattice
    case Some(builder) => b.(beamLattice := Some(f(builder)))
    case None => b.(beamLattice := Some(f(EmptyLattice)))
  }

  /** `build_mesh`: the vertices and triangles as added, and the built
      triangle sets and beam lattice when their builders were used. */
  function BuildMesh(b: MeshBuilder): (m: Mesh)
    ensures m.vertices == b.vertices && m.triangles == b.triangles
    ensures m.triangleSets.Some? <==> b.triangleSets.Some?
    ensures m.beamLattice.Some? <==> b.beamLattice.Some?
    ensures b.beamLattice.Some? ==> m.beamLattice.value == BuildBeamLattice(b.beamLattice.value)
    ensures b.triangleSets.Some? ==> m.triangleSets.value == TriangleSets(b.triangleSets.value.sets)
  {
    Mesh(b.vertices, b.triangles,
         match b.triangleSets case Some(t) => Some(BuildTriangleSets(t)) case None => None,
         match b.beamLattice case Some(l) => Some(BuildBeamLattice(l)) case None => None)
  }

  /** `MeshObjectBuilder::build`: refused without a uuid when the Production
      extension is required; otherwise the object with its mesh and no components. */
  function BuildMeshObject(b: MeshObjectBuilder): (r: Result<Object, MeshObjectError>)
    ensures r.Err? <==> b.isProductionExtRequired && b.uuid.None?
    ensures r.Ok? ==> r.value.id == b.objectId && r.value.uuid == b.uuid && r.value.name == b.name &&
                      r.value.objectType == b.objectType && r.value.partNumber == b.partNumber &&
                      r.value.mesh == Some(BuildMesh(b.entity)) && r.value.components.None? &&
                      r.value.booleanShape.None?
  {
    var mesh := BuildMesh(b.entity);
    if b.isProductionExtRequired && b.uuid.None? then Err(MeshObjectError.ObjectUuidNotSet)
    else Ok(Object(b.objectId, b.objectType, b.thumbnail, b.partNumber, b.name, b.pid, b.pindex, b.uuid,
                   Some(mesh), None, None))
  }

  // ------------------------------------------------------- triangle sets

  /** `add_set`: one triangle set with the given references and ranges. */
  function AddSet(b: TriangleSetsBuilder, name: string, identifier: string, refs: seq<nat>, ranges: seq<(nat, nat)>)
    : (r: TriangleSetsBuilder)
    ensures |r.sets| == |b.sets| + 1 && r.sets[..|b.sets|] == b.sets
    ensures var s := r.sets[|b.sets|];
            s.name == name && s.identifier == identifier &&
            |s.triangleRef| == |refs| && (forall i :: 0 <= i < |refs| ==> s.triangleRef[i].index == refs[i]) &&
            |s.triangleRefRange| == |ranges| &&
            forall i :: 0 <= i < |ranges| ==>
              s.triangleRefRange[i].startIndex == ranges[i].0 && s.triangleRefRange[i].endIndex == ranges[i].1
  {
    var triangleRef := seq(|refs|, i requires 0 <= i < |refs| => TriangleRef(refs[i]));
    var triangleRefRange := seq(|ranges|, i requires 0 <= i < |ranges| => TriangleRefRange(ranges[i].0, ranges[i].1));
    TriangleSetsBuilder(b.sets + [TriangleSet(name, identifier, triangleRef, triangleRefRange)])
  }

  function BuildTriangleSets(b: TriangleSetsBuilder): TriangleSets {
    TriangleSets(b.sets)
  }

  // -------------------------------------------------------- beam lattice

  /** 0.0001 as an IEEE-754 binary64 value, the default minimum length and radius. */
  const DefaultLatticeLength := F64(0x3F1A_36E2_EB1C_432D)

  function BuildBeam(b: BeamBuilder): Beam {
    Beam(b.v1, b.v2, b.r1, b.r2, b.p1, b.p2, b.pid, b.cap1, b.cap2)
  }

  function BuildBall(b: BallBuilder): Ball {
    Ball(b.vindex, b.r, b.p, b.pid)
  }

  /** `BeamSetBuilder::build`: each index becomes a reference. */
  function BuildBeamSet(b: BeamSetBuilder): (s: BeamSet)
    ensures s.name == b.name && s.identifier == b.identifier
    ensures |s.refs| == |b.beamRefs| && forall i :: 0 <= i < |b.beamRefs| ==> s.refs[i].index == b.beamRefs[i]
    ensures |s.ballRef| == |b.ballRefs| && forall i :: 0 <= i < |b.ballRefs| ==> s.ballRef[i].index == b.ballRefs[i]
  {
    BeamSet(b.name, b.identifier,
            seq(|b.beamRefs|, i requires 0 <= i < |b.beamRefs| => BeamRef(b.beamRefs[i])),
            seq(|b.ballRefs|, i requires 0 <= i < |b.ballRefs| => BallRef(b.ballRefs[i])))
  }

  /** `add_beam`: one plain beam between the two vertices is appended. */
  function AddBeam(b: BeamLatticeBuilder, v1: nat, v2: nat): (r: BeamLatticeBuilder)
    ensures r.(beams := b.beams) == b && r.beams == b.beams + [PlainBeam(v1, v2)]
  {
    b.(beams := b.beams + [BuildBeam(BeamBuilder(v1, v2, None, None, None, None, None, None, None))])
  }

  /** `add_beam_advanced`: the closure configures the beam between the two
      vertices; exactly one beam is appended and nothing else changes. */
  function AddBeamAdvanced(b: BeamLatticeBuilder, v1: nat, v2: nat, f: BeamBuilder -> BeamBuilder): (r: BeamLatticeBuilder)
    ensures r.(beams := b.beams) == b && |r.beams| == |b.beams| + 1 && r.beams[..|b.beams|] == b.beams
  {
    b.(beams := b.beams + [BuildBeam(f(BeamBuilder(v1, v2, None, None, None, None, None, None, None)))])
  }

  /** A closure that configures nothing gives the plain beam. */
  lemma BeamAdvancedIdentity(b: BeamLatticeBuilder, v1: nat, v2: nat)
    ensures AddBeamAdvanced(b, v1, v2, x => x) == AddBeam(b, v1, v2)
  {
  }

  /** A beam between two vertices with nothing else set. */
  function PlainBeam(v1: nat, v2: nat): Beam {
    Beam(v1, v2, None, None, None, None, None, None, None)
  }

  /** `add_beams`: one plain beam per vertex pair, appended in order. */
  method AddBeams(b: BeamLatticeBuilder, pairs: seq<(nat, nat)>) returns (r: BeamLatticeBuilder)
    ensures r.(beams := b.beams) == b
    ensures |r.beams| == |b.beams| + |pairs| && r.beams[..|b.beams|] == b.beams
    ensures forall i :: 0 <= i < |pairs| ==> r.beams[|b.beams| + i] == PlainBeam(pairs[i].0, pairs[i].1)
  {
    r := b;
    for i := 0 to |pairs|
      invariant r.(beams := b.beams) == b
      invariant |r.beams| == |b.beams| + i && r.beams[..|b.beams|] == b.beams
      invariant forall j :: 0 <= j < i ==> r.beams[|b.beams| + j] == PlainBeam(pairs[j].0, pairs[j].1)
    {
      r := AddBeam(r, pairs[i].0, pairs[i].1);
    }
  }

  /** `add_ball`: one plain ball at the vertex is appended. */
  function AddBall(b: BeamLatticeBuilder, vindex: nat): (r: BeamLatticeBuilder)
    ensures r.(balls := b.balls) == b && r.balls == b.balls + [Ball(vindex, None, None, None)]
  {
    b.(balls := b.balls + [BuildBall(BallBuilder(vindex, None, None, None))])
  }

  /** `add_ball_advanced`: exactly one ball is appended and nothing else changes. */
  function AddBallAdvanced(b: BeamLatticeBuilder, vindex: nat, f: BallBuilder -> BallBuilder): (r: BeamLatticeBuilder)
    ensures r.(balls := b.balls) == b && |r.balls| == |b.balls| + 1 && r.balls[..|b.balls|] == b.balls
  {
    b.(balls := b.balls + [BuildBall(f(BallBuilder(vindex, None, None, None)))])
  }

  /** A closure that configures nothing gives the plain ball. */
  lemma BallAdvancedIdentity(b: BeamLatticeBuilder, vindex: nat)
    ensures AddBallAdvanced(b, vindex, x => x) == AddBall(b, vindex)
  {
  }

  /** `add_balls`: one plain ball per vertex index, appended in order. */
  method AddBalls(b: BeamLatticeBuilder, vindices: seq<nat>) returns (r: BeamLatticeBuilder)
    ensures r.(balls := b.balls) == b
    ensures |r.balls| == |b.balls| + |vindices| && r.balls[..|b.balls|] == b.balls
    ensures forall i :: 0 <= i < |vindices| ==> r.balls[|b.balls| + i] == Ball(vindices[i], None, None, None)
  {
    r := b;
    for i := 0 to |vindices|
      invariant r.(balls := b.balls) == b
      invariant |r.balls| == |b.balls| + i && r.balls[..|b.balls|] == b.balls
      invariant forall j :: 0 <= j < i ==> r.balls[|b.balls| + j] == Ball(vindices[j], None, None, None)
    {
      r := AddBall(r, vindices[i]);
    }
  }

  /** `add_beamset`: the closure fills a fresh beam-set builder; one beam set
      is appended and nothing else changes. */
  function AddBeamset(b: BeamLatticeBuilder, f: BeamSetBuilder -> BeamSetBuilder): (r: BeamLatticeBuilder)
    ensures r.(beamSets := b.beamSets) == b && |r.beamSets| == |b.beamSets| + 1 && r.beamSets[..|b.beamSets|] == b.beamSets
    ensures r.beamSets[|b.beamSets|] == BuildBeamSet(f(BeamSetBuilder(None, None, [], [])))
  {
    b.(beamSets := b.beamSets + [BuildBeamSet(f(BeamSetBuilder(None, None, [], [])))])
  }

  /** An untouched beam-set builder gives an unnamed, empty beam set. */
  lemma EmptyBeamset(b: BeamLatticeBuilder)
    ensures AddBeamset(b, x => x).beamSets[|b.beamSets|] == BeamSet(None, None, [], [])
  {
  }

  /** `BeamLatticeBuilder::build`: minimum length and radius default to
      0.0001; balls and beam sets are left out when none were added. */
  function BuildBeamLattice(b: BeamLatticeBuilder): (l: BeamLattice)
    ensures l.minLength == b.minLength.UnwrapOr(DefaultLatticeLength)
    ensures l.radius == b.radius.UnwrapOr(DefaultLatticeLength)
    ensures l.beams == b.beams
    ensures l.balls.None? <==> b.balls == []
    ensures l.balls.Some? ==> l.balls.value == b.balls
    ensures l.beamSets.None? <==> b.beamSets == []
    ensures l.beamSets.Some? ==> l.beamSets.value == b.beamSets
    ensures l.ballMode == b.ballMode && l.ballRadius == b.ballRadius && l.clippingMode == b.clippingMode
    ensures l.clippingMesh == b.clippingMesh && l.representationMesh == b.representationMesh
    ensures l.pid == b.pid && l.pindex == b.pindex && l.cap == b.cap
  {
    BeamLattice(b.minLength.UnwrapOr(DefaultLatticeLength), b.radius.UnwrapOr(DefaultLatticeLength),
                b.ballMode, b.ballRadius, b.clippingMode, b.clippingMesh, b.representationMesh,
                b.pid, b.pindex, b.cap, b.beams,
                if b.balls == [] then None else Some(b.balls),
                if b.beamSets == [] then None else Some(b.beamSets))
  }

  // ---------------------------------------------------------- components

  datatype ComponentBuilder = ComponentBuilder(objectId: nat, transform: Option<Transform>,
                                               path: Option<string>, uuid: Option<string>)

  datatype ComponentsBuilder = ComponentsBuilder(components: seq<Component>, allExistingObjectIds: seq<nat>)

  type ComponentsObjectBuilder = ObjectBuilder<ComponentsBuilder>

  function BuildComponent(b: ComponentBuilder): Component {
    Component(b.objectId, b.transform, b.path, b.uuid)
  }

  /** `add_component_advanced`: the closure is handed a component builder
      referring to `objectId`. It may replace the whole builder (its
      constructor is public), so the appended component refers to `objectId`
      only when the closure keeps that id. */
  function AddComponentAdvanced(b: ComponentsBuilder, objectId: nat, f: ComponentBuilder -> ComponentBuilder)
    : (r: ComponentsBuilder)
    ensures r.allExistingObjectIds == b.allExistingObjectIds
    ensures |r.components| == |b.components| + 1 && r.components[..|b.components|] == b.components
    ensures f(ComponentBuilder(objectId, None, None, None)).objectId == objectId ==>
              r.components[|b.components|].objectId == objectId
  {
    var configured := f(ComponentBuilder(objectId, None, None, None));
    b.(components := b.components + [BuildComponent(configured)])
  }

  /** `add_component`: a component referring to `objectId`, nothing else set. */
  function AddComponent(b: ComponentsBuilder, objectId: nat): (r: ComponentsBuilder)
    ensures r == b.(components := b.components + [Component(objectId, None, None, None)])
  {
    AddComponentAdvanced(b, objectId, c => c)
  }

  predicate AllComponentUuidsSet(cs: seq<Component>) {
    forall i :: 0 <= i < |cs| ==> cs[i].uuid.Some?
  }

  predicate NoComponentPaths(cs: seq<Component>) {
    forall i :: 0 <= i < |cs| ==> cs[i].path.None?
  }

  predicate AllReferencesExist(cs: seq<Component>, ids: seq<nat>) {
    forall i :: 0 <= i < |cs| ==> cs[i].objectId in ids
  }

  /** `build_components`: with the Production extension every component
      needs a uuid, without it none may have a path; then every component must
      refer to an existing object. */
  function BuildComponents(b: ComponentsBuilder, isProductionExtRequired: bool): (r: Result<Components, ComponentsObjectError>)
    ensures r.Ok? <==> (if isProductionExtRequired then AllComponentUuidsSet(b.components) else NoComponentPaths(b.components)) &&
                       AllReferencesExist(b.components, b.allExistingObjectIds)
    ensures r.Ok? ==> r.value == Components(b.components)
    ensures r == Err(ComponentsObjectError.ComponentUuidNotSet) <==>
              isProductionExtRequired && !AllComponentUuidsSet(b.components)
    ensures r == Err(PathSetWithoutProductionExtension) <==>
              !isProductionExtRequired && !NoComponentPaths(b.components)
    ensures r.Err? ==> r.error != ComponentsObjectError.ObjectUuidNotSet
  {
    if isProductionExtRequired && !AllComponentUuidsSet(b.components) then Err(ComponentsObjectError.ComponentUuidNotSet)
    else if !isProductionExtRequired && !NoComponentPaths(b.components) then Err(PathSetWithoutProductionExtension)
    else if !AllReferencesExist(b.components, b.allExistingObjectIds) then Err(ObjectReferenceNotFoundForComponent)
    else Ok(Components(b.components))
  }

  /** `ComponentsObjectBuilder::build`: the component checks come before the
      object's own uuid check. */
  function BuildComponentsObject(b: ComponentsObjectBuilder): (r: Result<Object, ComponentsObjectError>)
    ensures BuildComponents(b.entity, b.isProductionExtRequired).Err? ==>
              r == Err(BuildComponents(b.entity, b.isProductionExtRequired).error)
    ensures BuildComponents(b.entity, b.isProductionExtRequired).Ok? ==>
              (r.Err? <==> b.isProductionExtRequired && b.uuid.None?) &&
              (r.Err? ==> r.error == ComponentsObjectError.ObjectUuidNotSet)
    ensures r.Ok? ==> r.value.id == b.objectId && r.value.uuid == b.uuid && r.value.name == b.name &&
                      r.value.objectType == b.objectType && r.value.partNumber == b.partNumber &&
                      r.value.mesh.None? && r.value.components == Some(Components(b.entity.components)) &&
                      r.value.booleanShape.None?
  {
    var components :- BuildComponents(b.entity, b.isProductionExtRequired);
    if b.isProductionExtRequired && b.uuid.None? then Err(ComponentsObjectError.ObjectUuidNotSet)
    else Ok(Object(b.objectId, b.objectType, b.thumbnail, b.partNumber, b.name, b.pid, b.pindex, b.uuid,
                   None, Some(components), None))
  }

  /** The components object builder after a closure edited it: the ids it
      may refer to are the builder's own, not the closure's. */
  function AfterComponentsEdit(before: ComponentsObjectBuilder, edited: ComponentsObjectBuilder): (b: ComponentsObjectBuilder)
    ensures b.entity.allExistingObjectIds == before.entity.allExistingObjectIds
    ensures b.entity.components == edited.entity.components
    ensures b.objectId == before.objectId && b.isProductionExtRequired == before.isProductionExtRequired
  {
    var kept := AfterEdit(before, edited);
    kept.(entity := kept.entity.(allExistingObjectIds := before.entity.allExistingObjectIds))
  }

  // -------------------------------------------------------- build, items

  datatype ItemBuilder = ItemBuilder(objectId: nat, transform: Option<Transform>, partNumber: Option<string>,
                                     path: Option<string>, uuid: Option<string>)

  /** `ItemBuilder::build`: a path needs the Production extension, and the
      extension needs a uuid. */
  function BuildItem(b: ItemBuilder, isProductionExtEnabled: bool): (r: Result<Item, ItemError>)
    ensures r == Err(ItemPathSetWithoutProductionExtension) <==> !isProductionExtEnabled && b.path.Some?
    ensures r == Err(ItemError.ItemUuidNotSet) <==> isProductionExtEnabled && b.uuid.None?
    ensures r.Ok? <==> (isProductionExtEnabled ==> b.uuid.Some?) && (!isProductionExtEnabled ==> b.path.None?)
    ensures r.Ok? ==> r.value == Item(b.objectId, b.transform, b.partNumber, b.path, b.uuid)
  {
    if !isProductionExtEnabled && b.path.Some? then Err(ItemPathSetWithoutProductionExtension)
    else if isProductionExtEnabled && b.uuid.None? then Err(ItemError.ItemUuidNotSet)
    else Ok(Item(b.objectId, b.transform, b.partNumber, b.path, b.uuid))
  }

  datatype BuildBuilder = BuildBuilder(items: seq<Item>, uuid: Option<string>)

  /** `BuildBuilder::add_build_item`: the closure configures an item for
      `objectId` (which it cannot change); a valid item is appended. */
  function AddBuildItem(b: BuildBuilder, objectId: nat, isProductionExtEnabled: bool, f: ItemBuilder -> ItemBuilder)
    : (r: Result<BuildBuilder, ItemError>)
    ensures var item := BuildItem(f(ItemBuilder(objectId, None, None, None, None)).(objectId := objectId), isProductionExtEnabled);
            (r.Ok? <==> item.Ok?) && (r.Err? ==> r.error == item.error) &&
            (r.Ok? ==> r.value == b.(items := b.items + [item.value]) && item.value.objectId == objectId)
  {
    var builder := f(ItemBuilder(objectId, None, None, None, None)).(objectId := objectId);
    var item :- BuildItem(builder, isProductionExtEnabled);
    Ok(b.(items := b.items + [item]))
  }

  /** `can_build`: with the Production extension the build needs a uuid. */
  function CanBuild(b: BuildBuilder, isProductionExtEnabled: bool): (r: Result<(), BuildError>)
    ensures r.Err? <==> isProductionExtEnabled && b.uuid.None?
  {
    if isProductionExtEnabled && b.uuid.None? then Err(BuildUuidNotSet) else Ok(())
  }

  /** `BuildBuilder::build`: the items as added. As written, the build's uuid
      is not carried over: the built `Build` never has one. */
  function BuildBuild(b: BuildBuilder, isProductionExtRequired: bool): (r: Result<Build, BuildError>)
    ensures r.Err? <==> isProductionExtRequired && b.uuid.None?
    ensures r.Ok? ==> r.value.item == b.items && r.value.uuid.None?
  {
    var _ :- CanBuild(b, isProductionExtRequired);
    Ok(Build(None, b.items))
  }

  /** The quirk spelled out: a build given a uuid loses it when built. */
  lemma BuildDropsUuid(items: seq<Item>, uuid: string, isProductionExtRequired: bool)
    ensures BuildBuild(BuildBuilder(items, Some(uuid)), isProductionExtRequired) == Ok(Build(None, items))
  {
  }
}
