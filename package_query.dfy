/** The package-level queries of the older crate (`query`): finding the
    object a component refers to, given the component's path and the path of
    the model that holds it, and listing objects of one kind across the root
    model and the sub-models. Sub-models are taken in the map's iteration
    order, which callers pass as `order`. */
module PackageQuery {
  import opened Wrappers
  import opened Collections
  import opened CoreTypes
  import Package
  import Q = Query
  import LegacyQuery

  /** `get_object_ref_from_model`: the first object with the id. */
  function GetObjectRefFromModel(objectId: nat, m: Model): (r: Option<Object>)
    ensures r.None? <==> forall i :: 0 <= i < |m.resources.objects| ==> m.resources.objects[i].id != objectId
    ensures r.Some? ==> r.value.id == objectId &&
                        exists i :: 0 <= i < |m.resources.objects| && m.resources.objects[i] == r.value &&
                                    forall k :: 0 <= k < i ==> m.resources.objects[k].id != objectId
  {
    match Q.FirstMatch(m.resources.objects, (o: Object) => o.id == objectId)
    case Some(i) => Some(m.resources.objects[i])
    case None => None
  }

  /** `get_object_ref_from_model` finds what the newer crate's
      `get_object_from_model` finds. */
  lemma ObjectLookupsAgree(objectId: nat, m: Model)
    ensures GetObjectRefFromModel(objectId, m) ==
              match Q.GetObjectFromModel(objectId, m) case Some(o) => Some(o.obj) case None => None
  {
  }

  /** `get_object_ref_from_id`: a component's own path names the sub-model
      to search; without one the parent model's path does; with neither the
      root model is searched. The object is returned with the path of the
      model it was searched in; a path with no such sub-model gives nothing. */
  function GetObjectRefFromId(objectId: nat, p: Package.ThreemfPackage, path: Option<string>,
                              parentModel: Option<string>): (r: (Option<Object>, Option<string>))
    ensures path.Some? ==>
              r == (if path.value in p.subModels
                    then (GetObjectRefFromModel(objectId, p.subModels[path.value]), path)
                    else (None, None))
    ensures path.None? && parentModel.Some? ==>
              r == (if parentModel.value in p.subModels
                    then (GetObjectRefFromModel(objectId, p.subModels[parentModel.value]), parentModel)
                    else (None, None))
    ensures path.None? && parentModel.None? ==> r == (GetObjectRefFromModel(objectId, p.root), None)
  {
    match path
    case Some(subModelPath) =>
      if subModelPath in p.subModels then (GetObjectRefFromModel(objectId, p.subModels[subModelPath]), Some(subModelPath))
      else (None, None)
    case None =>
      match parentModel
      case Some(modelPath) =>
        if modelPath in p.subModels then (GetObjectRefFromModel(objectId, p.subModels[modelPath]), Some(modelPath))
        else (None, None)
      case None => (GetObjectRefFromModel(objectId, p.root), None)
  }

  /** A found object has the id asked for, and is reported with a path
      exactly when it was found in a sub-model, which then holds it. */
  lemma FoundObjectIsInItsModel(objectId: nat, p: Package.ThreemfPackage, path: Option<string>,
                                parentModel: Option<string>)
    ensures var (o, at) := GetObjectRefFromId(objectId, p, path, parentModel);
            o.Some? ==> o.value.id == objectId &&
                        (if at.None? then o.value in p.root.resources.objects
                         else at.value in p.subModels && o.value in p.subModels[at.value].resources.objects)
  {
  }

  /** The component's own path wins over the parent model's path. */
  lemma OwnPathWins(objectId: nat, p: Package.ThreemfPackage, path: string, parentModel: Option<string>)
    ensures GetObjectRefFromId(objectId, p, Some(path), parentModel) == GetObjectRefFromId(objectId, p, Some(path), None)
  {
  }

  // ------------------------------------------------ package-wide filters

  /** The root model followed by the sub-models, in the given order. */
  function ModelsOf(p: Package.ThreemfPackage, order: seq<string>): (r: seq<Model>)
    requires IsEnumeration(order, p.subModels.Keys)
    ensures |r| == 1 + |order| && r[0] == p.root
    ensures forall i :: 0 <= i < |order| ==> r[i + 1] == p.subModels[order[i]]
  {
    [p.root] + seq(|order|, i requires 0 <= i < |order| => p.subModels[order[i]])
  }

  /** `get_mesh_objects_from_model` */
  function MeshObjectsOf(m: Model): (r: seq<Object>)
    ensures forall o :: o in r <==> o in m.resources.objects && o.mesh.Some?
  {
    Q.Filter(m.resources.objects, Q.HasMesh)
  }

  /** `get_composedpart_objects_from_model` */
  function ComposedPartObjectsOf(m: Model): (r: seq<Object>)
    ensures forall o :: o in r <==> o in m.resources.objects && o.components.Some?
  {
    Q.Filter(m.resources.objects, Q.HasComponents)
  }

  /** `get_beam_lattice_objects_from_model` */
  function BeamLatticeObjectsOf(m: Model): (r: seq<Object>)
    ensures forall o :: o in r <==> o in m.resources.objects && o.mesh.Some? && o.mesh.value.beamLattice.Some?
  {
    Q.Filter(m.resources.objects, LegacyQuery.HasBeamLattice)
  }

  /** `get_mesh_objects` */
  function PackageMeshObjects(p: Package.ThreemfPackage, order: seq<string>): seq<Object>
    requires IsEnumeration(order, p.subModels.Keys)
  {
    Q.FlatMap(ModelsOf(p, order), MeshObjectsOf)
  }

  /** `get_composedpart_objects` */
  function PackageComposedPartObjects(p: Package.ThreemfPackage, order: seq<string>): seq<Object>
    requires IsEnumeration(order, p.subModels.Keys)
  {
    Q.FlatMap(ModelsOf(p, order), ComposedPartObjectsOf)
  }

  /** `get_beam_lattice_objects` */
  function PackageBeamLatticeObjects(p: Package.ThreemfPackage, order: seq<string>): seq<Object>
    requires IsEnumeration(order, p.subModels.Keys)
  {
    Q.FlatMap(ModelsOf(p, order), BeamLatticeObjectsOf)
  }

  /** A flat map over a first element and the rest starts with the first element's image. */
  lemma {:induction false} FlatMapFirst<U>(models: seq<Model>, f: Model -> seq<U>)
    requires |models| >= 1
    ensures Q.FlatMap(models, f) == f(models[0]) + Q.FlatMap(models[1..], f)
  {
    var first := [models[0]];
    assert models == first + models[1..];
    Q.FlatMapAppend(first, models[1..], f);
    assert first[..|first| - 1] == [];
    assert Q.FlatMap(first, f) == Q.FlatMap([], f) + f(models[0]);
  }

  /** The package-wide filters list the root model's objects first. */
  lemma RootObjectsFirst(p: Package.ThreemfPackage, order: seq<string>)
    requires IsEnumeration(order, p.subModels.Keys)
    ensures |PackageMeshObjects(p, order)| >= |MeshObjectsOf(p.root)|
    ensures |PackageComposedPartObjects(p, order)| >= |ComposedPartObjectsOf(p.root)|
    ensures |PackageBeamLatticeObjects(p, order)| >= |BeamLatticeObjectsOf(p.root)|
    ensures PackageMeshObjects(p, order)[..|MeshObjectsOf(p.root)|] == MeshObjectsOf(p.root)
    ensures PackageComposedPartObjects(p, order)[..|ComposedPartObjectsOf(p.root)|] == ComposedPartObjectsOf(p.root)
    ensures PackageBeamLatticeObjects(p, order)[..|BeamLatticeObjectsOf(p.root)|] == BeamLatticeObjectsOf(p.root)
  {
    var models := ModelsOf(p, order);
    FlatMapFirst(models, MeshObjectsOf);
    FlatMapFirst(models, ComposedPartObjectsOf);
    FlatMapFirst(models, BeamLatticeObjectsOf);
  }

  /** A package-wide filter lists an object exactly when the per-model filter
      keeps it in the root model or in some sub-model; `f` is the per-model
      filter and `keep` its test. */
  lemma PackageFilterMembers(p: Package.ThreemfPackage, order: seq<string>, o: Object,
                             f: Model -> seq<Object>, keep: Object -> bool)
    requires IsEnumeration(order, p.subModels.Keys)
    requires forall m: Model :: o in f(m) <==> o in m.resources.objects && keep(o)
    ensures o in Q.FlatMap(ModelsOf(p, order), f) <==>
              keep(o) && (o in p.root.resources.objects ||
                          exists path :: path in p.subModels && o in p.subModels[path].resources.objects)
  {
    var models := ModelsOf(p, order);
    Q.FlatMapMembers(models, f, o);
    if keep(o) && exists path :: path in p.subModels && o in p.subModels[path].resources.objects {
      var path :| path in p.subModels && o in p.subModels[path].resources.objects;
      var k :| 0 <= k < |order| && order[k] == path;
      assert o in f(models[k + 1]);
    }
    if o in Q.FlatMap(models, f) {
      var i :| 0 <= i < |models| && o in f(models[i]);
      if i > 0 {
        assert models[i] == p.subModels[order[i - 1]];
      }
    }
  }

  /** An object is listed by the package-wide mesh filter exactly when it is
      a mesh object of the root model or of some sub-model. */
  lemma PackageMeshObjectsMembers(p: Package.ThreemfPackage, order: seq<string>, o: Object)
    requires IsEnumeration(order, p.subModels.Keys)
    ensures o in PackageMeshObjects(p, order) <==>
              o.mesh.Some? && (o in p.root.resources.objects ||
                               exists path :: path in p.subModels && o in p.subModels[path].resources.objects)
  {
    PackageFilterMembers(p, order, o, MeshObjectsOf, Q.HasMesh);
  }

  /** An object is listed by the package-wide composed-part filter exactly
      when it is a components object of the root model or of some sub-model. */
  lemma PackageComposedPartObjectsMembers(p: Package.ThreemfPackage, order: seq<string>, o: Object)
    requires IsEnumeration(order, p.subModels.Keys)
    ensures o in PackageComposedPartObjects(p, order) <==>
              o.components.Some? && (o in p.root.resources.objects ||
                                     exists path :: path in p.subModels && o in p.subModels[path].resources.objects)
  {
    PackageFilterMembers(p, order, o, ComposedPartObjectsOf, Q.HasComponents);
  }

  /** An object is listed by the package-wide beam-lattice filter exactly when
      its mesh has a lattice and the root model or some sub-model holds it. */
  lemma PackageBeamLatticeObjectsMembers(p: Package.ThreemfPackage, order: seq<string>, o: Object)
    requires IsEnumeration(order, p.subModels.Keys)
    ensures o in PackageBeamLatticeObjects(p, order) <==>
              o.mesh.Some? && o.mesh.value.beamLattice.Some? &&
              (o in p.root.resources.objects ||
               exists path :: path in p.subModels && o in p.subModels[path].resources.objects)
  {
    PackageFilterMembers(p, order, o, BeamLatticeObjectsOf, LegacyQuery.HasBeamLattice);
  }
}
