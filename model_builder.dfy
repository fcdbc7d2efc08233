/** `ModelBuilder` of the older crate: collects objects, metadata, extensions
    and a build, hands out object ids 1, 2, 3, ... in the order objects are
    added, enforces the Production extension's uuid rules, and finally turns
    everything into a `Model`, adding the namespaces the content needs and
    writing each list of extensions as the space-terminated string of its
    prefixes. */
module ModelBuilding {
  import opened Wrappers
  import opened Collections
  import opened CoreTypes
  import CoreEnums
  import P = BuilderParts
  import Ns = LegacyNamespaces

  // ---------------------------------------------------------------- errors

  datatype ModelError =
    | BuildItemNotSet
    | BuildOnlyAllowedInRootModel
    | BuildError(buildError: P.BuildError)
    | ItemError(itemError: P.ItemError)

  datatype ProductionExtensionError =
    | ObjectUuidNotSet
    | ComponentUuidNotSet
    | ItemUuidNotSet
    | BuildUuidNotSet

  // ----------------------------------------------------- Production check

  predicate ComponentUuidsSet(o: Object) {
    o.components.Some? ==> P.AllComponentUuidsSet(o.components.value.component)
  }

  /** Every object, and every component of a components object, has a uuid. */
  predicate ObjectsReady(objects: seq<Object>) {
    forall i :: 0 <= i < |objects| ==> objects[i].uuid.Some? && ComponentUuidsSet(objects[i])
  }

  predicate ItemUuidsSet(items: seq<Item>) {
    forall i :: 0 <= i < |items| ==> items[i].uuid.Some?
  }

  /** No build yet, or a build with a uuid whose items all have one. */
  predicate BuildReady(build: Option<P.BuildBuilder>) {
    build.Some? ==> build.value.uuid.Some? && ItemUuidsSet(build.value.items)
  }

  /** The checks `make_production_extension_required` runs, object by
      object: the object's uuid, its components' uuids, then the build. */
  function ProductionCheck(objects: seq<Object>, build: Option<P.BuildBuilder>): Result<(), ProductionExtensionError>
    decreases |objects|
  {
    if objects == [] then Ok(())
    else if objects[0].uuid.None? then Err(ObjectUuidNotSet)
    else if !ComponentUuidsSet(objects[0]) then Err(ComponentUuidNotSet)
    else if build.Some? && build.value.uuid.Some? && !ItemUuidsSet(build.value.items) then Err(ItemUuidNotSet)
    else if build.Some? && build.value.uuid.None? then Err(BuildUuidNotSet)
    else ProductionCheck(objects[1..], build)
  }

  /** The check passes exactly when there are no objects, or when all objects
      and components have uuids and the build is ready. The build is only
      looked at while visiting an object, so without objects it is never looked at. */
  lemma {:induction false} ProductionCheckMeaning(objects: seq<Object>, build: Option<P.BuildBuilder>)
    ensures ProductionCheck(objects, build).Ok? <==> objects == [] || (ObjectsReady(objects) && BuildReady(build))
    decreases |objects|
  {
    if objects != [] {
      ProductionCheckMeaning(objects[1..], build);
      if ObjectsReady(objects) {
        assert ObjectsReady(objects[1..]) by {
          forall i | 0 <= i < |objects[1..]| ensures objects[1..][i].uuid.Some? && ComponentUuidsSet(objects[1..][i]) {
            assert objects[1..][i] == objects[i + 1];
          }
        }
      }
      if ProductionCheck(objects, build).Ok? && objects[1..] != [] {
        forall i | 0 <= i < |objects| ensures objects[i].uuid.Some? && ComponentUuidsSet(objects[i]) {
          if i > 0 {
            assert objects[i] == objects[1..][i - 1];
          }
        }
      }
    }
  }

  /** A failed check names what is missing on the first object that lacks
      something, or on the build. */
  lemma {:induction false} ProductionCheckErrors(objects: seq<Object>, build: Option<P.BuildBuilder>)
    ensures ProductionCheck(objects, build) == Err(ObjectUuidNotSet) ==> exists i :: 0 <= i < |objects| && objects[i].uuid.None?
    ensures ProductionCheck(objects, build) == Err(ComponentUuidNotSet) ==> exists i :: 0 <= i < |objects| && !ComponentUuidsSet(objects[i])
    ensures ProductionCheck(objects, build) == Err(ItemUuidNotSet) ==> build.Some? && !ItemUuidsSet(build.value.items)
    ensures ProductionCheck(objects, build) == Err(BuildUuidNotSet) ==> build.Some? && build.value.uuid.None?
    decreases |objects|
  {
    if objects != [] && objects[0].uuid.Some? && ComponentUuidsSet(objects[0]) && BuildReady(build) {
      ProductionCheckErrors(objects[1..], build);
      if ProductionCheck(objects, build) == Err(ObjectUuidNotSet) {
        var i :| 0 <= i < |objects[1..]| && objects[1..][i].uuid.None?;
        assert objects[i + 1].uuid.None?;
      }
      if ProductionCheck(objects, build) == Err(ComponentUuidNotSet) {
        var i :| 0 <= i < |objects[1..]| && !ComponentUuidsSet(objects[1..][i]);
        assert !ComponentUuidsSet(objects[i + 1]);
      }
    }
  }

  // ------------------------------------------------- required extensions

  const ProdDeclaration := XmlNamespace(Some(Ns.ProdPrefix), Ns.ProdNs)
  const BeamLatticeDeclaration := XmlNamespace(Some(Ns.BeamLatticePrefix), Ns.BeamLatticeNs)
  const BeamLatticeBallsDeclaration := XmlNamespace(Some(Ns.BeamLatticeBallsPrefix), Ns.BeamLatticeBallsNs)
  const TriangleSetDeclaration := XmlNamespace(Some(Ns.CoreTriangleSetPrefix), Ns.CoreTriangleSetNs)

  predicate HasUri(extensions: seq<XmlNamespace>, uri: string) {
    exists i :: 0 <= i < |extensions| && extensions[i].uri == uri
  }

  /** No URI is declared twice. */
  predicate UrisDistinct(extensions: seq<XmlNamespace>) {
    forall i, j :: 0 <= i < j < |extensions| ==> extensions[i].uri != extensions[j].uri
  }

  /** The list with `ns` appended unless its URI is already declared. */
  function EnsureDeclared(extensions: seq<XmlNamespace>, ns: XmlNamespace): (r: seq<XmlNamespace>)
    ensures HasUri(r, ns.uri)
    ensures forall uri :: uri != ns.uri ==> (HasUri(r, uri) <==> HasUri(extensions, uri))
    ensures UrisDistinct(extensions) ==> UrisDistinct(r)
    ensures |extensions| <= |r| <= |extensions| + 1 && r[..|extensions|] == extensions
    ensures |r| == |extensions| + 1 ==> r[|extensions|] == ns
  {
    if HasUri(extensions, ns.uri) then extensions
    else
      var r := extensions + [ns];
      assert r[|extensions|].uri == ns.uri;
      assert forall uri :: HasUri(r, uri) <==> HasUri(extensions, uri) || uri == ns.uri by {
        forall uri | HasUri(r, uri) && uri != ns.uri ensures HasUri(extensions, uri) {
          var i :| 0 <= i < |r| && r[i].uri == uri;
          assert r[i] == extensions[i];
        }
        forall uri | HasUri(extensions, uri) ensures HasUri(r, uri) {
          var i :| 0 <= i < |extensions| && extensions[i].uri == uri;
          assert r[i] == extensions[i];
        }
      }
      r
  }

  /** The beam lattice of an object, if it is a mesh object with one. */
  function LatticeOf(o: Object): Option<BeamLattice> {
    match o.mesh
    case Some(m) => m.beamLattice
    case None => None
  }

  predicate HasLattice(objects: seq<Object>) {
    exists i :: 0 <= i < |objects| && LatticeOf(objects[i]).Some?
  }

  predicate HasBalls(objects: seq<Object>) {
    exists i :: 0 <= i < |objects| && LatticeOf(objects[i]).Some? && LatticeOf(objects[i]).value.balls.Some?
  }

  /** The required extensions the model is written with: the user's list,
      then the Production namespace when the extension is required, the beam
      lattice namespace when an object has a lattice, and the balls namespace
      when a lattice has balls, each only if its URI is not listed yet. */
  function RequiredExtensions(required: seq<XmlNamespace>, isProductionExtRequired: bool, objects: seq<Object>)
    : (r: seq<XmlNamespace>)
    ensures |required| <= |r| <= |required| + 3 && r[..|required|] == required
    ensures HasUri(r, Ns.ProdNs) <==> HasUri(required, Ns.ProdNs) || isProductionExtRequired
    ensures HasUri(r, Ns.BeamLatticeNs) <==> HasUri(required, Ns.BeamLatticeNs) || HasLattice(objects)
    ensures HasUri(r, Ns.BeamLatticeBallsNs) <==> HasUri(required, Ns.BeamLatticeBallsNs) || HasBalls(objects)
    ensures forall uri :: uri !in {Ns.ProdNs, Ns.BeamLatticeNs, Ns.BeamLatticeBallsNs} ==>
              (HasUri(r, uri) <==> HasUri(required, uri))
    ensures UrisDistinct(required) ==> UrisDistinct(r)
  {
    var withProd := if isProductionExtRequired then EnsureDeclared(required, ProdDeclaration) else required;
    var withLattice := if HasLattice(objects) then EnsureDeclared(withProd, BeamLatticeDeclaration) else withProd;
    var r := if HasBalls(objects) then EnsureDeclared(withLattice, BeamLatticeBallsDeclaration) else withLattice;
    assert withProd[..|required|] == required;
    assert withLattice[..|withProd|] == withProd;
    assert r[..|withLattice|] == withLattice;
    r
  }

  /** Nothing is added beyond the user's list when the extension is not
      required and no object has a beam lattice. */
  lemma RequiredExtensionsPlain(required: seq<XmlNamespace>, objects: seq<Object>)
    requires !HasLattice(objects)
    ensures RequiredExtensions(required, false, objects) == required
  {
    assert !HasBalls(objects);
  }

  /** Balls imply a lattice, so the balls namespace never comes without the
      beam lattice one unless the user listed it alone. */
  lemma BallsNeedLattice(required: seq<XmlNamespace>, isProductionExtRequired: bool, objects: seq<Object>)
    requires !HasUri(required, Ns.BeamLatticeBallsNs)
    ensures var r := RequiredExtensions(required, isProductionExtRequired, objects);
            HasUri(r, Ns.BeamLatticeBallsNs) ==> HasUri(r, Ns.BeamLatticeNs)
  {
  }

  /** Sets the flags of `process_required_extensions` from the objects: the
      scan stops once a lattice with balls has been seen. */
  method ScanLattices(objects: seq<Object>) returns (isBeamLatticeRequired: bool, isBeamLatticeBallsRequired: bool)
    ensures isBeamLatticeRequired == HasLattice(objects)
    ensures isBeamLatticeBallsRequired == HasBalls(objects)
  {
    isBeamLatticeRequired := false;
    isBeamLatticeBallsRequired := false;
    var i := 0;
    while i < |objects|
      invariant 0 <= i <= |objects|
      invariant isBeamLatticeRequired == HasLattice(objects[..i])
      invariant isBeamLatticeBallsRequired == HasBalls(objects[..i])
      invariant isBeamLatticeBallsRequired ==> isBeamLatticeRequired
    {
      if isBeamLatticeBallsRequired {
        break;
      }
      assert objects[..i + 1] == objects[..i] + [objects[i]];
      match LatticeOf(objects[i]) {
        case Some(lattice) =>
          isBeamLatticeRequired := true;
          isBeamLatticeBallsRequired := lattice.balls.Some?;
        case None =>
      }
      i := i + 1;
    }
    if i == |objects| {
      assert objects[..i] == objects;
    } else {
      var k :| 0 <= k < |objects[..i]| && LatticeOf(objects[..i][k]).Some? && LatticeOf(objects[..i][k]).value.balls.Some?;
      assert objects[..i][k] == objects[k];
    }
  }

  // ------------------------------------------------- extension attribute

  function PrefixText(ns: XmlNamespace): string {
    match ns.prefix
    case Some(p) => p + " "
    case None => ""
  }

  /** The attribute text for the namespaces in the given order: each
      prefix followed by a space; a namespace without a prefix adds nothing. */
  function ExtensionsText(order: seq<XmlNamespace>): (s: string)
    ensures (forall i :: 0 <= i < |order| ==> order[i].prefix.None?) ==> s == ""
    ensures |order| == 1 ==> s == PrefixText(order[0])
    decreases |order|
  {
    if order == [] then "" else ExtensionsText(order[..|order| - 1]) + PrefixText(order[|order| - 1])
  }

  /** The namespaces of a list, duplicates merged (`HashSet`). */
  function UniqueOf(extensions: seq<XmlNamespace>): set<XmlNamespace> {
    set ns | ns in extensions
  }

  /** `get_extensions_definition` for a given iteration order of the set. */
  function ExtensionsAttribute(extensions: seq<XmlNamespace>, order: seq<XmlNamespace>): (r: Option<string>)
    ensures r.None? <==> extensions == []
  {
    if extensions == [] then None else Some(ExtensionsText(order))
  }

  /** `get_extensions_definition`: `None` for no extensions; otherwise the
      prefixes of the distinct namespaces, in the set's iteration order
      (reported as the ghost `order`). */
  method GetExtensionsDefinition(extensions: seq<XmlNamespace>) returns (r: Option<string>, ghost order: seq<XmlNamespace>)
    ensures extensions != [] ==> IsEnumeration(order, UniqueOf(extensions))
    ensures r == ExtensionsAttribute(extensions, order)
  {
    order := [];
    if extensions == [] {
      return None, order;
    }
    var unique: set<XmlNamespace> := {};
    for i := 0 to |extensions|
      invariant unique == UniqueOf(extensions[..i])
    {
      assert extensions[..i + 1] == extensions[..i] + [extensions[i]];
      unique := unique + {extensions[i]};
    }
    assert extensions[..|extensions|] == extensions;
    var text := "";
    var remaining := unique;
    while remaining != {}
      invariant remaining <= unique
      invariant IsEnumeration(order, unique - remaining)
      invariant text == ExtensionsText(order)
      decreases |remaining|
    {
      var ns :| ns in remaining;
      match ns.prefix {
        case Some(p) => text := text + p + " ";
        case None =>
      }
      DistinctAppend(order, ns);
      assert (order + [ns])[..|order|] == order;
      order := order + [ns];
      remaining := remaining - {ns};
    }
    r := Some(text);
  }

  /** A list naming one namespace, however often, is written as that
      namespace's prefix and a space, whatever the set's order. */
  lemma ExtensionsOfOne(extensions: seq<XmlNamespace>, ns: XmlNamespace, order: seq<XmlNamespace>)
    requires extensions != [] && forall i :: 0 <= i < |extensions| ==> extensions[i] == ns
    requires IsEnumeration(order, UniqueOf(extensions))
    ensures ExtensionsAttribute(extensions, order) == Some(PrefixText(ns))
  {
    assert extensions[0] in UniqueOf(extensions);
    assert UniqueOf(extensions) == {ns};
    EnumerationLength(order, UniqueOf(extensions));
    assert order[0] in UniqueOf(extensions);
  }

  /** A non-empty list of namespaces none of which has a prefix is written
      as an empty attribute, not left out. */
  lemma ExtensionsWithoutPrefixes(extensions: seq<XmlNamespace>, order: seq<XmlNamespace>)
    requires extensions != [] && forall i :: 0 <= i < |extensions| ==> extensions[i].prefix.None?
    requires IsEnumeration(order, UniqueOf(extensions))
    ensures ExtensionsAttribute(extensions, order) == Some("")
  {
    forall i | 0 <= i < |order| ensures order[i].prefix.None? {
      assert order[i] in UniqueOf(extensions);
    }
  }

  /** Listing a namespace again changes nothing: the same orders are
      possible and give the same text. */
  lemma ExtensionsIgnoreRepeats(extensions: seq<XmlNamespace>, k: nat)
    requires k < |extensions|
    ensures UniqueOf(extensions + [extensions[k]]) == UniqueOf(extensions)
    ensures forall order :: ExtensionsAttribute(extensions + [extensions[k]], order) == ExtensionsAttribute(extensions, order)
  {
  }

  // ------------------------------------------------ recommended, for meshes

  /** `set_recommended_namespaces_for_mesh`: the triangle-set namespace is
      appended when the mesh has triangle sets and every recommended
      namespace so far has the triangle-set URI (in particular when there are
      none). */
  function WithTriangleSetNs(recommended: seq<XmlNamespace>, mesh: Mesh): (r: seq<XmlNamespace>)
    ensures mesh.triangleSets.None? ==> r == recommended
    ensures r == recommended || r == recommended + [TriangleSetDeclaration]
    ensures r != recommended <==> mesh.triangleSets.Some? && forall i :: 0 <= i < |recommended| ==> recommended[i].uri == Ns.CoreTriangleSetNs
  {
    if mesh.triangleSets.Some? && forall i :: 0 <= i < |recommended| ==> recommended[i].uri == Ns.CoreTriangleSetNs then
      recommended + [TriangleSetDeclaration]
    else recommended
  }

  /** As written, the test lets the namespace in twice: a second mesh with
      triangle sets appends it again (the attribute text merges the repeat). */
  lemma TriangleSetNsRepeats(mesh: Mesh)
    requires mesh.triangleSets.Some?
    ensures WithTriangleSetNs(WithTriangleSetNs([], mesh), mesh) == [TriangleSetDeclaration, TriangleSetDeclaration]
  {
  }

  /** As written, any other recommended namespace keeps the triangle-set one out. */
  lemma TriangleSetNsBlocked(recommended: seq<XmlNamespace>, mesh: Mesh, k: nat)
    requires k < |recommended| && recommended[k].uri != Ns.CoreTriangleSetNs
    ensures WithTriangleSetNs(recommended, mesh) == recommended
  {
  }

  // ------------------------------------------------------------- state

  /** The builder's fields as one value (`resources.objects` as `objects`). */
  datatype BuilderState = BuilderState(
    unit: Option<CoreEnums.Unit>,
    requiredExtensions: seq<XmlNamespace>,
    recommendedExtensions: seq<XmlNamespace>,
    metadata: seq<Metadata>,
    objects: seq<Object>,
    build: Option<P.BuildBuilder>,
    isRoot: bool,
    nextObjectId: nat,
    isProductionExtRequired: bool)

  /** The object ids that exist, in order. */
  function IdsOf(objects: seq<Object>): (ids: seq<nat>)
    ensures |ids| == |objects| && forall i :: 0 <= i < |objects| ==> ids[i] == objects[i].id
  {
    seq(|objects|, i requires 0 <= i < |objects| => objects[i].id)
  }

  /** A components object refers only to objects added before it. */
  predicate RefersBack(o: Object, index: nat) {
    o.components.Some? ==>
      forall j :: 0 <= j < |o.components.value.component| ==> 1 <= o.components.value.component[j].objectId <= index
  }

  /** What every reachable builder state keeps: the i-th object has id i + 1
      and the next id follows the last; components refer to earlier objects;
      once the Production extension is required, objects and components have uuids. */
  ghost predicate WellFormed(s: BuilderState) {
    s.nextObjectId == |s.objects| + 1 &&
    (forall i :: 0 <= i < |s.objects| ==> s.objects[i].id == i + 1) &&
    (forall i :: 0 <= i < |s.objects| ==> RefersBack(s.objects[i], i)) &&
    (s.isProductionExtRequired ==> ObjectsReady(s.objects))
  }

  /** The state after an object was stored: appended, and the next id after its own. */
  function ObjectAdded(s: BuilderState, o: Object): (r: BuilderState)
    ensures r.objects == s.objects + [o] && r.nextObjectId == o.id + 1
    ensures r.(objects := s.objects, nextObjectId := s.nextObjectId, recommendedExtensions := s.recommendedExtensions) == s
    ensures o.mesh.Some? ==> r.recommendedExtensions == WithTriangleSetNs(s.recommendedExtensions, o.mesh.value)
    ensures o.mesh.None? ==> r.recommendedExtensions == s.recommendedExtensions
  {
    var recommended := match o.mesh case Some(m) => WithTriangleSetNs(s.recommendedExtensions, m) case None => s.recommendedExtensions;
    s.(objects := s.objects + [o], nextObjectId := o.id + 1, recommendedExtensions := recommended)
  }

  /** The mesh object builder `add_mesh_object` hands to its closure. */
  function FreshMeshObject(s: BuilderState): P.MeshObjectBuilder {
    P.NewObjectBuilder(s.nextObjectId, P.EmptyMesh, s.isProductionExtRequired)
  }

  /** The components object builder `add_components_object` hands to its
      closure: it may refer to every object added so far. */
  function FreshComponentsObject(s: BuilderState): P.ComponentsObjectBuilder {
    P.NewObjectBuilder(s.nextObjectId, P.ComponentsBuilder([], IdsOf(s.objects)), s.isProductionExtRequired)
  }

  /** `build`: a root model needs a build and a sub-model may not have one;
      the build is checked against the Production extension; the resources
      are the objects and no base materials. The two extension attributes
      are passed in, already computed. */
  function BuiltModel(s: BuilderState, requiredText: Option<string>, recommendedText: Option<string>)
    : (r: Result<Model, ModelError>)
    ensures r == Err(BuildItemNotSet) <==> s.isRoot && s.build.None?
    ensures r == Err(BuildOnlyAllowedInRootModel) <==> !s.isRoot && s.build.Some?
    ensures r == Err(BuildError(P.BuildUuidNotSet)) <==>
              s.isRoot && s.build.Some? && s.isProductionExtRequired && s.build.value.uuid.None?
    ensures r.Err? ==> !r.error.ItemError?
    ensures r.Ok? ==> r.value.unit == s.unit && r.value.metadata == s.metadata &&
                      r.value.requiredExtensions == requiredText && r.value.recommendedExtensions == recommendedText &&
                      r.value.resources == Resources(s.objects, []) && r.value.build.uuid.None?
    ensures r.Ok? ==> r.value.build.item == (if s.isRoot then s.build.value.items else [])
  {
    if s.isRoot && s.build.None? then Err(BuildItemNotSet)
    else if !s.isRoot && s.build.Some? then Err(BuildOnlyAllowedInRootModel)
    else
      var build :- match s.build
                   case Some(b) => (match P.BuildBuild(b, s.isProductionExtRequired)
                                    case Ok(v) => Ok(v)
                                    case Err(e) => Err(BuildError(e)))
                   case None => Ok(CoreTypes.Build(None, []));
      Ok(Model(s.unit, requiredText, recommendedText, s.metadata, Resources(s.objects, []), build))
  }

  /** What the builder's invariant says about the model it builds: objects
      numbered 1, 2, 3, ... in order, components referring only to earlier
      objects, and uuids on all objects and components under the Production extension. */
  lemma BuiltModelWellFormed(s: BuilderState, requiredText: Option<string>, recommendedText: Option<string>)
    requires WellFormed(s) && BuiltModel(s, requiredText, recommendedText).Ok?
    ensures var objects := BuiltModel(s, requiredText, recommendedText).value.resources.objects;
            (forall i :: 0 <= i < |objects| ==> objects[i].id == i + 1) &&
            (forall i :: 0 <= i < |objects| ==> RefersBack(objects[i], i)) &&
            (s.isProductionExtRequired ==> ObjectsReady(objects))
  {
  }

  /** As written, the Production check skips the build when there are no
      objects yet, so a model requiring the extension can be built with an
      item that has no uuid. */
  lemma ItemWithoutUuidGetsThrough(item: Item, uuid: string)
    requires item.uuid.None?
    ensures var s := BuilderState(None, [], [], [], [], Some(P.BuildBuilder([item], Some(uuid))), true, 1, false);
            ProductionCheck(s.objects, s.build) == Ok(()) &&
            var m := BuiltModel(s.(isProductionExtRequired := true), None, None);
            m.Ok? && m.value.build.item == [item]
  {
  }

  // ------------------------------------------------------------- class

  class ModelBuilder {
    var unit: Option<CoreEnums.Unit>
    var requiredExtensions: seq<XmlNamespace>
    var recommendedExtensions: seq<XmlNamespace>
    var metadata: seq<Metadata>
    var objects: seq<Object>
    var build: Option<P.BuildBuilder>
    var isRoot: bool
    var nextObjectId: nat
    var isProductionExtRequired: bool

    function State(): BuilderState
      reads this
    {
      BuilderState(unit, requiredExtensions, recommendedExtensions, metadata, objects, build, isRoot,
                   nextObjectId, isProductionExtRequired)
    }

    ghost predicate Valid()
      reads this
    {
      WellFormed(State())
    }

    /** `ModelBuilder::new`: the unit set, nothing added, the first id 1. */
    constructor (unit: CoreEnums.Unit, isRoot: bool)
      ensures Valid()
      ensures State() == BuilderState(Some(unit), [], [], [], [], None, isRoot, 1, false)
    {
      this.unit := Some(unit);
      requiredExtensions := [];
      recommendedExtensions := [];
      metadata := [];
      objects := [];
      build := None;
      this.isRoot := isRoot;
      nextObjectId := 1;
      isProductionExtRequired := false;
    }

    /** `Default`: a root model in millimetres. */
    constructor Default()
      ensures Valid()
      ensures State() == BuilderState(Some(CoreEnums.Unit.Millimeter), [], [], [], [], None, true, 1, false)
    {
      unit := Some(CoreEnums.Unit.Millimeter);
      requiredExtensions := [];
      recommendedExtensions := [];
      metadata := [];
      objects := [];
      build := None;
      isRoot := true;
      nextObjectId := 1;
      isProductionExtRequired := false;
    }

    /** `unit`: the last unit set wins. */
    method SetUnit(unit: CoreEnums.Unit)
      requires Valid()
      modifies this
      ensures Valid()
      ensures State() == old(State()).(unit := Some(unit))
    {
      this.unit := Some(unit);
    }

    /** `make_root` */
    method MakeRoot(isRoot: bool)
      requires Valid()
      modifies this
      ensures Valid()
      ensures State() == old(State()).(isRoot := isRoot)
    {
      this.isRoot := isRoot;
    }

    /** `make_production_extension_required`: runs the Production check over
      the objects added so far; on success the extension is required from
      now on, on failure nothing changes. */
    method MakeProductionExtensionRequired() returns (r: Result<(), ProductionExtensionError>)
      requires Valid()
      modifies this
      ensures Valid()
      ensures r == ProductionCheck(old(objects), old(build))
      ensures r.Err? ==> State() == old(State())
      ensures r.Ok? ==> State() == old(State()).(isProductionExtRequired := true)
    {
      var i := 0;
      while i < |objects|
        invariant 0 <= i <= |objects|
        invariant ProductionCheck(objects, build) == ProductionCheck(objects[i..], build)
      {
        var o := objects[i];
        if o.uuid.None? {
          return Err(ObjectUuidNotSet);
        } else if !ComponentUuidsSet(o) {
          return Err(ComponentUuidNotSet);
        }
        if build.Some? {
          if build.value.uuid.Some? {
            if !ItemUuidsSet(build.value.items) {
              return Err(ItemUuidNotSet);
            }
          } else {
            return Err(BuildUuidNotSet);
          }
        }
        assert objects[i..][1..] == objects[i + 1..];
        i := i + 1;
      }
      ProductionCheckMeaning(objects, build);
      isProductionExtRequired := true;
      r := Ok(());
    }

    /** `add_required_extension` */
    method AddRequiredExtension(extension: XmlNamespace)
      requires Valid()
      modifies this
      ensures Valid()
      ensures State() == old(State()).(requiredExtensions := old(requiredExtensions) + [extension])
    {
      requiredExtensions := requiredExtensions + [extension];
    }

    /** `add_recommended_extension` */
    method AddRecommendedExtension(extension: XmlNamespace)
      requires Valid()
      modifies this
      ensures Valid()
      ensures State() == old(State()).(recommendedExtensions := old(recommendedExtensions) + [extension])
    {
      recommendedExtensions := recommendedExtensions + [extension];
    }

    /** `add_metadata`: an entry without a preserve flag. */
    method AddMetadata(name: string, value: Option<string>)
      requires Valid()
      modifies this
      ensures Valid()
      ensures State() == old(State()).(metadata := old(metadata) + [Metadata(name, None, value)])
    {
      metadata := metadata + [Metadata(name, None, value)];
    }

    /** `set_recommended_namespaces_for_mesh` */
    method SetRecommendedNamespacesForMesh(mesh: Mesh)
      modifies this
      ensures State() == old(State()).(recommendedExtensions := WithTriangleSetNs(old(recommendedExtensions), mesh))
    {
      if mesh.triangleSets.Some? && forall i :: 0 <= i < |recommendedExtensions| ==> recommendedExtensions[i].uri == Ns.CoreTriangleSetNs {
        recommendedExtensions := recommendedExtensions + [TriangleSetDeclaration];
      }
    }

    /** `add_mesh_object_from_builder`: builds the object; on success stores
      it, updates the recommended namespaces for its mesh and returns its id.
      The builder is one the model builder itself created for the next id
      (its constructor is private to the library). */
    method AddMeshObjectFromBuilder(builder: P.MeshObjectBuilder) returns (r: Result<nat, P.MeshObjectError>)
      requires Valid()
      requires builder.objectId == nextObjectId && builder.isProductionExtRequired == isProductionExtRequired
      modifies this
      ensures Valid()
      ensures P.BuildMeshObject(builder).Err? ==> r == Err(P.BuildMeshObject(builder).error) && State() == old(State())
      ensures P.BuildMeshObject(builder).Ok? ==>
                r == Ok(builder.objectId) && State() == ObjectAdded(old(State()), P.BuildMeshObject(builder).value)
    {
      var built := P.BuildMeshObject(builder);
      if built.Err? {
        return Err(built.error);
      }
      match built.value.mesh {
        case Some(mesh) => SetRecommendedNamespacesForMesh(mesh);
        case None =>
      }
      objects := objects + [built.value];
      nextObjectId := builder.objectId + 1;
      r := Ok(builder.objectId);
    }

    /** `add_mesh_object`: the closure configures a mesh object builder for
      the next id; its error is passed on with nothing changed. */
    method AddMeshObject(f: P.MeshObjectBuilder -> Result<P.MeshObjectBuilder, P.MeshObjectError>)
      returns (r: Result<nat, P.MeshObjectError>)
      requires Valid()
      modifies this
      ensures Valid()
      ensures var b := FreshMeshObject(old(State()));
              (f(b).Err? ==> r == Err(f(b).error) && State() == old(State())) &&
              (f(b).Ok? ==>
                var built := P.BuildMeshObject(P.AfterEdit(b, f(b).value));
                (built.Err? ==> r == Err(built.error) && State() == old(State())) &&
                (built.Ok? ==> r == Ok(old(nextObjectId)) && State() == ObjectAdded(old(State()), built.value)))
    {
      var b := P.NewObjectBuilder(nextObjectId, P.EmptyMesh, isProductionExtRequired);
      var edited := f(b);
      if edited.Err? {
        return Err(edited.error);
      }
      r := AddMeshObjectFromBuilder(P.AfterEdit(b, edited.value));
    }

    /** `add_composed_part_object_from_builder`: builds the components object;
      on success stores it and returns its id. The builder is one the model
      builder created for the next id, allowed to refer to the existing objects. */
    method AddComposedPartObjectFromBuilder(builder: P.ComponentsObjectBuilder) returns (r: Result<nat, P.ComponentsObjectError>)
      requires Valid()
      requires builder.objectId == nextObjectId && builder.isProductionExtRequired == isProductionExtRequired
      requires builder.entity.allExistingObjectIds == IdsOf(objects)
      modifies this
      ensures Valid()
      ensures P.BuildComponentsObject(builder).Err? ==> r == Err(P.BuildComponentsObject(builder).error) && State() == old(State())
      ensures P.BuildComponentsObject(builder).Ok? ==>
                r == Ok(builder.objectId) && State() == ObjectAdded(old(State()), P.BuildComponentsObject(builder).value)
    {
      var built := P.BuildComponentsObject(builder);
      if built.Err? {
        return Err(built.error);
      }
      ghost var cs := builder.entity.components;
      assert built.value.components == Some(Components(cs));
      assert P.AllReferencesExist(cs, IdsOf(objects));
      assert RefersBack(built.value, |objects|) by {
        forall j | 0 <= j < |cs| ensures 1 <= cs[j].objectId <= |objects| {
          var k :| 0 <= k < |IdsOf(objects)| && IdsOf(objects)[k] == cs[j].objectId;
          assert objects[k].id == k + 1;
        }
      }
      objects := objects + [built.value];
      nextObjectId := builder.objectId + 1;
      r := Ok(builder.objectId);
    }

    /** `add_components_object`: the closure configures a components object
      builder for the next id that may refer to the objects added so far. */
    method AddComponentsObject(f: P.ComponentsObjectBuilder -> Result<P.ComponentsObjectBuilder, P.ComponentsObjectError>)
      returns (r: Result<nat, P.ComponentsObjectError>)
      requires Valid()
      modifies this
      ensures Valid()
      ensures var b := FreshComponentsObject(old(State()));
              (f(b).Err? ==> r == Err(f(b).error) && State() == old(State())) &&
              (f(b).Ok? ==>
                var built := P.BuildComponentsObject(P.AfterComponentsEdit(b, f(b).value));
                (built.Err? ==> r == Err(built.error) && State() == old(State())) &&
                (built.Ok? ==> r == Ok(old(nextObjectId)) && State() == ObjectAdded(old(State()), built.value)))
    {
      var b := P.NewObjectBuilder(nextObjectId, P.ComponentsBuilder([], IdsOf(objects)), isProductionExtRequired);
      var edited := f(b);
      if edited.Err? {
        return Err(edited.error);
      }
      r := AddComposedPartObjectFromBuilder(P.AfterComponentsEdit(b, edited.value));
    }

    /** `add_build`: only a root model takes a build, and under the Production
      extension only one with a uuid; it replaces any earlier build. */
    method AddBuild(uuid: Option<string>) returns (r: Result<(), ModelError>)
      requires Valid()
      modifies this
      ensures Valid()
      ensures !old(isRoot) ==> r == Err(BuildOnlyAllowedInRootModel)
      ensures old(isRoot) && old(isProductionExtRequired) && uuid.None? ==> r == Err(BuildError(P.BuildUuidNotSet))
      ensures r.Ok? <==> old(isRoot) && (old(isProductionExtRequired) ==> uuid.Some?)
      ensures r.Err? ==> State() == old(State())
      ensures r.Ok? ==> State() == old(State()).(build := Some(P.BuildBuilder([], uuid)))
    {
      if !isRoot {
        return Err(BuildOnlyAllowedInRootModel);
      }
      var builder := P.BuildBuilder([], uuid);
      var check := P.CanBuild(builder, isProductionExtRequired);
      if check.Err? {
        return Err(BuildError(check.error));
      }
      build := Some(builder);
      r := Ok(());
    }

    /** `add_build_item_advanced`: there must be a build; the closure
      configures the item, which must then satisfy the Production rules. */
    method AddBuildItemAdvanced(objectId: nat, f: P.ItemBuilder -> P.ItemBuilder) returns (r: Result<(), ModelError>)
      requires Valid()
      modifies this
      ensures Valid()
      ensures old(build).None? ==> r == Err(BuildItemNotSet) && State() == old(State())
      ensures old(build).Some? ==>
                var added := P.AddBuildItem(old(build).value, objectId, old(isProductionExtRequired), f);
                (added.Err? ==> r == Err(ItemError(added.error)) && State() == old(State())) &&
                (added.Ok? ==> r == Ok(()) && State() == old(State()).(build := Some(added.value)))
    {
      match build {
        case None => return Err(BuildItemNotSet);
        case Some(b) =>
          var added := P.AddBuildItem(b, objectId, isProductionExtRequired, f);
          if added.Err? {
            return Err(ItemError(added.error));
          }
          build := Some(added.value);
          r := Ok(());
      }
    }

    /** `add_build_item`: an item for the object with nothing else set. */
    method AddBuildItem(objectId: nat) returns (r: Result<(), ModelError>)
      requires Valid()
      modifies this
      ensures Valid()
      ensures old(build).None? ==> r == Err(BuildItemNotSet) && State() == old(State())
      ensures old(build).Some? && old(isProductionExtRequired) ==> r == Err(ItemError(P.ItemUuidNotSet)) && State() == old(State())
      ensures old(build).Some? && !old(isProductionExtRequired) ==>
                r == Ok(()) &&
                State() == old(State()).(build := Some(old(build).value.(items := old(build).value.items + [Item(objectId, None, None, None, None)])))
    {
      r := AddBuildItemAdvanced(objectId, item => item);
    }

    /** `process_required_extensions` */
    method ProcessRequiredExtensions() returns (r: seq<XmlNamespace>)
      ensures r == RequiredExtensions(requiredExtensions, isProductionExtRequired, objects)
    {
      r := requiredExtensions;
      if isProductionExtRequired {
        r := EnsureDeclared(r, ProdDeclaration);
      }
      var isBeamLatticeRequired, isBeamLatticeBallsRequired := ScanLattices(objects);
      if isBeamLatticeRequired {
        r := EnsureDeclared(r, BeamLatticeDeclaration);
        if isBeamLatticeBallsRequired {
          r := EnsureDeclared(r, BeamLatticeBallsDeclaration);
        }
      }
    }

    /** `build`: the model, with the required extensions completed for the
      content and both extension lists written in their sets' iteration
      orders (the ghost `requiredOrder` and `recommendedOrder`). */
    method Build() returns (r: Result<Model, ModelError>, ghost requiredOrder: seq<XmlNamespace>,
                            ghost recommendedOrder: seq<XmlNamespace>)
      ensures var required := RequiredExtensions(requiredExtensions, isProductionExtRequired, objects);
              (required != [] ==> IsEnumeration(requiredOrder, UniqueOf(required))) &&
              (recommendedExtensions != [] ==> IsEnumeration(recommendedOrder, UniqueOf(recommendedExtensions))) &&
              r == BuiltModel(State(), ExtensionsAttribute(required, requiredOrder),
                              ExtensionsAttribute(recommendedExtensions, recommendedOrder))
    {
      var required := ProcessRequiredExtensions();
      var requiredText, recommendedText;
      requiredText, requiredOrder := GetExtensionsDefinition(required);
      recommendedText, recommendedOrder := GetExtensionsDefinition(recommendedExtensions);
      if isRoot && build.None? {
        return Err(BuildItemNotSet), requiredOrder, recommendedOrder;
      }
      if !isRoot && build.Some? {
        return Err(BuildOnlyAllowedInRootModel), requiredOrder, recommendedOrder;
      }
      var built: CoreTypes.Build;
      match build {
        case Some(b) =>
          var checked := P.BuildBuild(b, isProductionExtRequired);
          if checked.Err? {
            return Err(BuildError(checked.error)), requiredOrder, recommendedOrder;
          }
          built := checked.value;
        case None =>
          built := CoreTypes.Build(None, []);
      }
      r := Ok(Model(unit, requiredText, recommendedText, metadata, Resources(objects, []), built));
    }
  }

  /** A root model that only required the Production extension writes "p "
      as its required extensions. */
  lemma ProductionOnlyRequiresP(objects: seq<Object>, order: seq<XmlNamespace>)
    requires !HasLattice(objects)
    requires IsEnumeration(order, UniqueOf(RequiredExtensions([], true, objects)))
    ensures ExtensionsAttribute(RequiredExtensions([], true, objects), order) == Some("p ")
  {
    assert !HasBalls(objects);
    assert RequiredExtensions([], true, objects) == [ProdDeclaration];
    ExtensionsOfOne([ProdDeclaration], ProdDeclaration, order);
    assert PrefixText(ProdDeclaration) == Ns.ProdPrefix + " " == "p ";
  }
}
