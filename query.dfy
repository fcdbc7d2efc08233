/** The query layer of the newer crate (`io::query`): read-only views over a
    package's models. Models are visited root first, then each sub-model under
    its path; objects and build items are reported together with the path of
    the model they come from (`None` for the root). The sub-models are
    visited in the map's iteration order, which callers pass as `order`. */
module Query {
  import opened Wrappers
  import opened Collections
  import opened CoreTypes
  import CoreEnums
  import Package

  // ------------------------------------------------- sequence primitives

  /** The elements that `keep` accepts, in their order (`Iterator::filter`). */
  function Filter<T(!new)>(s: seq<T>, keep: T -> bool): (r: seq<T>)
    ensures |r| <= |s|
    ensures forall x :: x in r <==> x in s && keep(x)
    decreases |s|
  {
    if s == [] then []
    else Filter(s[..|s| - 1], keep) + (if keep(s[|s| - 1]) then [s[|s| - 1]] else [])
  }

  /** Filtering a concatenation filters each part. */
  lemma {:induction false} FilterAppend<T(!new)>(a: seq<T>, b: seq<T>, keep: T -> bool)
    ensures Filter(a + b, keep) == Filter(a, keep) + Filter(b, keep)
    decreases |b|
  {
    if b == [] {
      assert a + b == a;
    } else {
      var b' := b[..|b| - 1];
      assert (a + b)[..|a + b| - 1] == a + b';
      FilterAppend(a, b', keep);
    }
  }

  /** A filter that accepts everything keeps the sequence. */
  lemma {:induction false} FilterKeepsAll<T(!new)>(s: seq<T>, keep: T -> bool)
    requires forall i :: 0 <= i < |s| ==> keep(s[i])
    ensures Filter(s, keep) == s
    decreases |s|
  {
    if s != [] {
      var init, last := s[..|s| - 1], s[|s| - 1];
      assert keep(last);
      assert Filter(s, keep) == Filter(init, keep) + [last];
      FilterKeepsAll(init, keep);
      assert init + [last] == s;
    }
  }

  /** The index of the first element `p` accepts (`Iterator::find`). */
  function FirstMatch<T>(s: seq<T>, p: T -> bool): (r: Option<nat>)
    ensures r.None? <==> forall i :: 0 <= i < |s| ==> !p(s[i])
    ensures r.Some? ==> r.value < |s| && p(s[r.value]) && forall k :: 0 <= k < r.value ==> !p(s[k])
    decreases |s|
  {
    if s == [] then None
    else if p(s[0]) then Some(0)
    else match FirstMatch(s[1..], p)
      case Some(k) => Some(k + 1)
      case None => None
  }

  /** The concatenation of `f` over the elements (`Iterator::flat_map`). */
  function FlatMap<T, U>(s: seq<T>, f: T -> seq<U>): (r: seq<U>)
    decreases |s|
  {
    if s == [] then [] else FlatMap(s[..|s| - 1], f) + f(s[|s| - 1])
  }

  lemma {:induction false} FlatMapAppend<T, U>(a: seq<T>, b: seq<T>, f: T -> seq<U>)
    ensures FlatMap(a + b, f) == FlatMap(a, f) + FlatMap(b, f)
    decreases |b|
  {
    if b == [] {
      assert a + b == a;
    } else {
      var b' := b[..|b| - 1];
      assert (a + b)[..|a + b| - 1] == a + b';
      FlatMapAppend(a, b', f);
    }
  }

  /** An element of a flat map comes from the image of some element. */
  lemma {:induction false} FlatMapMembers<T, U>(s: seq<T>, f: T -> seq<U>, x: U)
    ensures x in FlatMap(s, f) <==> exists i :: 0 <= i < |s| && x in f(s[i])
    decreases |s|
  {
    if s != [] {
      var s' := s[..|s| - 1];
      FlatMapMembers(s', f, x);
      if x in FlatMap(s, f) && x !in FlatMap(s', f) {
        assert x in f(s[|s| - 1]);
      }
      if exists i :: 0 <= i < |s| && x in f(s[i]) {
        var i :| 0 <= i < |s| && x in f(s[i]);
        if i < |s| - 1 {
          assert s'[i] == s[i];
        }
      }
    }
  }

  // -------------------------------------------------------------- models

  /** A model together with its path in the package (`None` for the root). */
  datatype ModelRef = ModelRef(model: Model, path: Option<string>)

  /** `iter_models`: the root first, then each sub-model with its path. */
  function IterModels(p: Package.ThreemfPackage, order: seq<string>): (r: seq<ModelRef>)
    requires IsEnumeration(order, p.subModels.Keys)
    ensures |r| == 1 + |order| == 1 + |p.subModels|
    ensures r[0] == ModelRef(p.root, None)
    ensures forall i :: 0 <= i < |order| ==> r[i + 1] == ModelRef(p.subModels[order[i]], Some(order[i]))
  {
    EnumerationLength(order, p.subModels.Keys);
    [ModelRef(p.root, None)] + seq(|order|, i requires 0 <= i < |order| => ModelRef(p.subModels[order[i]], Some(order[i])))
  }

  /** After the root, every model is a sub-model under its own path; every
      sub-model is visited, and no path is visited twice. */
  lemma IterModelsVisitsEachOnce(p: Package.ThreemfPackage, order: seq<string>, path: string)
    requires IsEnumeration(order, p.subModels.Keys)
    ensures var r := IterModels(p, order);
            (forall i :: 1 <= i < |r| ==>
               r[i].path.Some? && r[i].path.value in p.subModels && r[i].model == p.subModels[r[i].path.value]) &&
            (path in p.subModels <==> exists i :: 0 <= i < |r| && r[i].path == Some(path)) &&
            (forall i, j :: 0 <= i < j < |r| ==> r[i].path != r[j].path)
  {
    var r := IterModels(p, order);
    if path in p.subModels {
      var k :| 0 <= k < |order| && order[k] == path;
      assert r[k + 1].path == Some(path);
    }
    forall i | 1 <= i < |r| ensures r[i].path.Some? && r[i].path.value in p.subModels {
      assert r[i].path == Some(order[i - 1]);
    }
  }

  /** The model a sub-model path is visited with. */
  lemma IterModelsFind(p: Package.ThreemfPackage, order: seq<string>, path: string) returns (i: nat)
    requires IsEnumeration(order, p.subModels.Keys) && path in p.subModels
    ensures 0 < i < |IterModels(p, order)| && IterModels(p, order)[i] == ModelRef(p.subModels[path], Some(path))
  {
    var k :| 0 <= k < |order| && order[k] == path;
    i := k + 1;
  }

  // ------------------------------------------------------------- objects

  /** An object together with the path of its model (`ObjectRef`). */
  datatype ObjectRef = ObjectRef(obj: Object, path: Option<string>)

  function Tag(objects: seq<Object>, path: Option<string>): (r: seq<ObjectRef>)
    ensures |r| == |objects| && forall i :: 0 <= i < |objects| ==> r[i] == ObjectRef(objects[i], path)
  {
    seq(|objects|, i requires 0 <= i < |objects| => ObjectRef(objects[i], path))
  }

  lemma TagAppend(a: seq<Object>, b: seq<Object>, path: Option<string>)
    ensures Tag(a + b, path) == Tag(a, path) + Tag(b, path)
  {
  }

  /** `get_object_from_model`: the first object with the id, reported without a path. */
  function GetObjectFromModel(objectId: nat, m: Model): (r: Option<ObjectRef>)
    ensures r.None? <==> forall i :: 0 <= i < |m.resources.objects| ==> m.resources.objects[i].id != objectId
    ensures r.Some? ==> r.value.path.None? && r.value.obj.id == objectId &&
                        exists i :: 0 <= i < |m.resources.objects| && m.resources.objects[i] == r.value.obj &&
                                    forall k :: 0 <= k < i ==> m.resources.objects[k].id != objectId
  {
    match FirstMatch(m.resources.objects, (o: Object) => o.id == objectId)
    case Some(i) => Some(ObjectRef(m.resources.objects[i], None))
    case None => None
  }

  /** `get_objects_from_model_ref`: every object, in order, with the model's path. */
  function GetObjectsFromModelRef(mr: ModelRef): (r: seq<ObjectRef>)
    ensures |r| == |mr.model.resources.objects|
    ensures forall i :: 0 <= i < |r| ==> r[i].obj == mr.model.resources.objects[i] && r[i].path == mr.path
  {
    Tag(mr.model.resources.objects, mr.path)
  }

  /** `get_objects_from_model`: the root form, without a path. */
  function GetObjectsFromModel(m: Model): (r: seq<ObjectRef>)
    ensures |r| == |m.resources.objects| && forall i :: 0 <= i < |r| ==> r[i] == ObjectRef(m.resources.objects[i], None)
  {
    GetObjectsFromModelRef(ModelRef(m, None))
  }

  /** `get_objects`: the objects of every model, root first. */
  function GetObjects(p: Package.ThreemfPackage, order: seq<string>): seq<ObjectRef>
    requires IsEnumeration(order, p.subModels.Keys)
  {
    FlatMap(IterModels(p, order), GetObjectsFromModelRef)
  }

  /** `get_objects` lists the root model's objects first, then those of the
      sub-models, and reports an object under a path exactly when that
      model holds it. */
  lemma GetObjectsRootFirst(p: Package.ThreemfPackage, order: seq<string>)
    requires IsEnumeration(order, p.subModels.Keys)
    ensures |GetObjects(p, order)| >= |p.root.resources.objects|
    ensures GetObjects(p, order)[..|p.root.resources.objects|] == GetObjectsFromModel(p.root)
  {
    var models := IterModels(p, order);
    assert models == [models[0]] + models[1..];
    FlatMapAppend([models[0]], models[1..], GetObjectsFromModelRef);
    assert FlatMap([models[0]], GetObjectsFromModelRef) == GetObjectsFromModelRef(models[0]) by {
      assert [models[0]][..0] == [];
    }
  }

  lemma GetObjectsMembers(p: Package.ThreemfPackage, order: seq<string>, x: ObjectRef)
    requires IsEnumeration(order, p.subModels.Keys)
    ensures x in GetObjects(p, order) <==>
              (x.path.None? && x.obj in p.root.resources.objects) ||
              (x.path.Some? && x.path.value in p.subModels && x.obj in p.subModels[x.path.value].resources.objects)
  {
    var models := IterModels(p, order);
    FlatMapMembers(models, GetObjectsFromModelRef, x);
    if x.path.Some? && x.path.value in p.subModels && x.obj in p.subModels[x.path.value].resources.objects {
      var i := IterModelsFind(p, order, x.path.value);
      var k :| 0 <= k < |p.subModels[x.path.value].resources.objects| && p.subModels[x.path.value].resources.objects[k] == x.obj;
      assert GetObjectsFromModelRef(models[i])[k] == x;
    }
    if x.path.None? && x.obj in p.root.resources.objects {
      var k :| 0 <= k < |p.root.resources.objects| && p.root.resources.objects[k] == x.obj;
      assert GetObjectsFromModelRef(models[0])[k] == x;
    }
    if x in GetObjects(p, order) {
      var i :| 0 <= i < |models| && x in GetObjectsFromModelRef(models[i]);
      var k :| 0 <= k < |GetObjectsFromModelRef(models[i])| && GetObjectsFromModelRef(models[i])[k] == x;
      if i > 0 {
        assert models[i] == ModelRef(p.subModels[order[i - 1]], Some(order[i - 1]));
      }
    }
  }

  // ----------------------------------------------------- object filters

  function HasMesh(o: Object): bool {
    o.mesh.Some?
  }

  function HasComponents(o: Object): bool {
    o.components.Some?
  }

  /** `get_mesh_objects_from_model_ref`: the mesh objects, in order, with the model's path. */
  function GetMeshObjectsFromModelRef(mr: ModelRef): (r: seq<ObjectRef>)
    ensures forall x :: x in r <==> x.path == mr.path && x.obj in mr.model.resources.objects && x.obj.mesh.Some?
  {
    Tag(Filter(mr.model.resources.objects, HasMesh), mr.path)
  }

  /** `get_components_objects_from_model_ref`: the components objects, in order, with the model's path. */
  function GetComponentsObjectsFromModelRef(mr: ModelRef): (r: seq<ObjectRef>)
    ensures forall x :: x in r <==> x.path == mr.path && x.obj in mr.model.resources.objects && x.obj.components.Some?
  {
    Tag(Filter(mr.model.resources.objects, HasComponents), mr.path)
  }

  /** The object filters keep order: the filtered objects of a model whose
      objects are `a + b` are those of `a` followed by those of `b`. */
  lemma MeshFilterKeepsOrder(a: seq<Object>, b: seq<Object>, path: Option<string>, m: Model)
    requires m.resources.objects == a + b
    ensures GetMeshObjectsFromModelRef(ModelRef(m, path)) == Tag(Filter(a, HasMesh), path) + Tag(Filter(b, HasMesh), path)
    ensures GetComponentsObjectsFromModelRef(ModelRef(m, path)) ==
              Tag(Filter(a, HasComponents), path) + Tag(Filter(b, HasComponents), path)
  {
    FilterAppend(a, b, HasMesh);
    FilterAppend(a, b, HasComponents);
  }

  /** A model of mesh objects only is reported whole by the mesh filter, and
      not at all by the components filter when no object has components. */
  lemma MeshFilterOnMeshesOnly(mr: ModelRef)
    requires forall i :: 0 <= i < |mr.model.resources.objects| ==> mr.model.resources.objects[i].mesh.Some?
    ensures GetMeshObjectsFromModelRef(mr) == GetObjectsFromModelRef(mr)
  {
    FilterKeepsAll(mr.model.resources.objects, HasMesh);
  }

  // --------------------------------------------------- typed object refs

  /** `GenericObjectRef`: an object's attributes with its geometry `T` and
      origin path; an absent object type reads as Model. */
  datatype GenericObjectRef<T> = GenericObjectRef(
    entity: T,
    id: nat,
    objectType: CoreEnums.ObjectType,
    thumbnail: Option<string>,
    partNumber: Option<string>,
    name: Option<string>,
    pid: Option<nat>,
    pindex: Option<nat>,
    uuid: Option<string>,
    originModelPath: Option<string>)

  function RefOf<T>(o: ObjectRef, entity: T): (r: GenericObjectRef<T>)
    ensures r.id == o.obj.id && r.originModelPath == o.path && r.entity == entity
    ensures r.objectType == o.obj.objectType.UnwrapOr(CoreEnums.ObjectType.Model)
    ensures r.uuid == o.obj.uuid && r.name == o.obj.name && r.partNumber == o.obj.partNumber
    ensures r.thumbnail == o.obj.thumbnail && r.pid == o.obj.pid && r.pindex == o.obj.pindex
  {
    GenericObjectRef(entity, o.obj.id, o.obj.objectType.UnwrapOr(CoreEnums.ObjectType.Model), o.obj.thumbnail,
                     o.obj.partNumber, o.obj.name, o.obj.pid, o.obj.pindex, o.obj.uuid, o.path)
  }

  /** `MeshObjectRef::new`, for a mesh object (the source unwraps the mesh). */
  function MeshObjectRefOf(o: ObjectRef): (r: GenericObjectRef<Mesh>)
    requires o.obj.mesh.Some?
    ensures r == RefOf(o, o.obj.mesh.value)
    ensures o.obj.objectType.None? ==> r.objectType == CoreEnums.ObjectType.Model
  {
    RefOf(o, o.obj.mesh.value)
  }

  /** `ComponentsObjectRef::new`, for a components object. */
  function ComponentsObjectRefOf(o: ObjectRef): (r: GenericObjectRef<Components>)
    requires o.obj.components.Some?
    ensures r == RefOf(o, o.obj.components.value)
    ensures o.obj.objectType.None? ==> r.objectType == CoreEnums.ObjectType.Model
  {
    RefOf(o, o.obj.components.value)
  }

  /** The typed refs of a list of mesh objects, one each, in order. */
  function MeshObjectRefs(refs: seq<ObjectRef>): (r: seq<GenericObjectRef<Mesh>>)
    requires forall i :: 0 <= i < |refs| ==> refs[i].obj.mesh.Some?
    ensures |r| == |refs| && forall i :: 0 <= i < |refs| ==> r[i] == MeshObjectRefOf(refs[i])
  {
    seq(|refs|, i requires 0 <= i < |refs| => MeshObjectRefOf(refs[i]))
  }

  /** The typed refs of a list of components objects, one each, in order. */
  function ComponentsObjectRefs(refs: seq<ObjectRef>): (r: seq<GenericObjectRef<Components>>)
    requires forall i :: 0 <= i < |refs| ==> refs[i].obj.components.Some?
    ensures |r| == |refs| && forall i :: 0 <= i < |refs| ==> r[i] == ComponentsObjectRefOf(refs[i])
  {
    seq(|refs|, i requires 0 <= i < |refs| => ComponentsObjectRefOf(refs[i]))
  }

  /** Everything the package-wide mesh filter collects is a mesh object. */
  lemma AllMeshes(models: seq<ModelRef>)
    ensures forall i :: 0 <= i < |FlatMap(models, GetMeshObjectsFromModelRef)| ==>
              FlatMap(models, GetMeshObjectsFromModelRef)[i].obj.mesh.Some?
  {
    var refs := FlatMap(models, GetMeshObjectsFromModelRef);
    forall i | 0 <= i < |refs| ensures refs[i].obj.mesh.Some? {
      FlatMapMembers(models, GetMeshObjectsFromModelRef, refs[i]);
    }
  }

  lemma AllComponents(models: seq<ModelRef>)
    ensures forall i :: 0 <= i < |FlatMap(models, GetComponentsObjectsFromModelRef)| ==>
              FlatMap(models, GetComponentsObjectsFromModelRef)[i].obj.components.Some?
  {
    var refs := FlatMap(models, GetComponentsObjectsFromModelRef);
    forall i | 0 <= i < |refs| ensures refs[i].obj.components.Some? {
      FlatMapMembers(models, GetComponentsObjectsFromModelRef, refs[i]);
    }
  }

  /** `get_mesh_objects`: the mesh objects of every model, root first. */
  function GetMeshObjects(p: Package.ThreemfPackage, order: seq<string>): seq<GenericObjectRef<Mesh>>
    requires IsEnumeration(order, p.subModels.Keys)
  {
    AllMeshes(IterModels(p, order));
    MeshObjectRefs(FlatMap(IterModels(p, order), GetMeshObjectsFromModelRef))
  }

  /** `get_components_objects`: the components objects of every model, root first. */
  function GetComponentsObjects(p: Package.ThreemfPackage, order: seq<string>): seq<GenericObjectRef<Components>>
    requires IsEnumeration(order, p.subModels.Keys)
  {
    AllComponents(IterModels(p, order));
    ComponentsObjectRefs(FlatMap(IterModels(p, order), GetComponentsObjectsFromModelRef))
  }

  /** The package-wide typed refs report exactly the mesh objects and components
      objects of the package's models, each under its model's path. */
  lemma TypedRefsMembers(p: Package.ThreemfPackage, order: seq<string>, x: ObjectRef)
    requires IsEnumeration(order, p.subModels.Keys)
    ensures x in FlatMap(IterModels(p, order), GetMeshObjectsFromModelRef) <==> x in GetObjects(p, order) && x.obj.mesh.Some?
    ensures x in FlatMap(IterModels(p, order), GetComponentsObjectsFromModelRef) <==>
              x in GetObjects(p, order) && x.obj.components.Some?
  {
    var models := IterModels(p, order);
    FlatMapMembers(models, GetMeshObjectsFromModelRef, x);
    FlatMapMembers(models, GetComponentsObjectsFromModelRef, x);
    FlatMapMembers(models, GetObjectsFromModelRef, x);
    forall i | 0 <= i < |models|
      ensures x in GetObjectsFromModelRef(models[i]) <==> x.path == models[i].path && x.obj in models[i].model.resources.objects
    {
      var objs := models[i].model.resources.objects;
      if x.path == models[i].path && x.obj in objs {
        var k :| 0 <= k < |objs| && objs[k] == x.obj;
        assert GetObjectsFromModelRef(models[i])[k] == x;
      }
    }
  }

  // ---------------------------------------------------------- components

  /** A component with the path of the model its object is to be found in. */
  datatype ComponentRef = ComponentRef(objectId: nat, pathToLookFor: Option<string>,
                                       transform: Option<Transform>, uuid: Option<string>)

  /** `ComponentsObjectRef::components`: a component's own path wins;
      without one, the object is looked for in the components object's own model. */
  function ComponentRefs(r: GenericObjectRef<Components>): (cs: seq<ComponentRef>)
    ensures |cs| == |r.entity.component|
    ensures forall i :: 0 <= i < |cs| ==>
              var c := r.entity.component[i];
              cs[i].objectId == c.objectId && cs[i].transform == c.transform && cs[i].uuid == c.uuid &&
              cs[i].pathToLookFor == (if c.path.Some? then c.path else r.originModelPath)
  {
    seq(|r.entity.component|, i requires 0 <= i < |r.entity.component| =>
      var c := r.entity.component[i];
      ComponentRef(c.objectId, match c.path case Some(path) => Some(path) case None => r.originModelPath, c.transform, c.uuid))
  }

  /** A component of a root-model object without a path is looked for in
      the root model (no path). */
  lemma RootComponentsStayInRoot(r: GenericObjectRef<Components>, i: nat)
    requires r.originModelPath.None? && i < |r.entity.component| && r.entity.component[i].path.None?
    ensures ComponentRefs(r)[i].pathToLookFor.None?
  {
  }

  // --------------------------------------------------------------- items

  /** A build item with the path of its model (`ItemRef`). */
  datatype ItemRef = ItemRef(item: Item, originModelPath: Option<string>)

  /** `get_items_from_model_ref`: every build item, in order, with the model's path. */
  function GetItemsFromModelRef(mr: ModelRef): (r: seq<ItemRef>)
    ensures |r| == |mr.model.build.item|
    ensures forall i :: 0 <= i < |r| ==> r[i] == ItemRef(mr.model.build.item[i], mr.path)
  {
    seq(|mr.model.build.item|, i requires 0 <= i < |mr.model.build.item| => ItemRef(mr.model.build.item[i], mr.path))
  }

  /** `get_items_from_model` */
  function GetItemsFromModel(m: Model): (r: seq<ItemRef>)
    ensures |r| == |m.build.item| && forall i :: 0 <= i < |r| ==> r[i] == ItemRef(m.build.item[i], None)
  {
    GetItemsFromModelRef(ModelRef(m, None))
  }

  /** `get_items`: the build items of every model, root first. */
  function GetItems(p: Package.ThreemfPackage, order: seq<string>): seq<ItemRef>
    requires IsEnumeration(order, p.subModels.Keys)
  {
    FlatMap(IterModels(p, order), GetItemsFromModelRef)
  }

  /** An item is reported under a path exactly when that model's build holds it. */
  lemma GetItemsMembers(p: Package.ThreemfPackage, order: seq<string>, x: ItemRef)
    requires IsEnumeration(order, p.subModels.Keys)
    ensures x in GetItems(p, order) <==>
              (x.originModelPath.None? && x.item in p.root.build.item) ||
              (x.originModelPath.Some? && x.originModelPath.value in p.subModels &&
               x.item in p.subModels[x.originModelPath.value].build.item)
  {
    var models := IterModels(p, order);
    if x.originModelPath.Some? && x.originModelPath.value in p.subModels && x.item in p.subModels[x.originModelPath.value].build.item {
      assert x in GetItems(p, order) by {
        var i := IterModelsFind(p, order, x.originModelPath.value);
        var k :| 0 <= k < |p.subModels[x.originModelPath.value].build.item| && p.subModels[x.originModelPath.value].build.item[k] == x.item;
        assert GetItemsFromModelRef(models[i])[k] == x;
        FlatMapMembers(models, GetItemsFromModelRef, x);
      }
    }
    if x.originModelPath.None? && x.item in p.root.build.item {
      assert x in GetItems(p, order) by {
        var k :| 0 <= k < |p.root.build.item| && p.root.build.item[k] == x.item;
        assert GetItemsFromModelRef(models[0])[k] == x;
        FlatMapMembers(models, GetItemsFromModelRef, x);
      }
    }
    if x in GetItems(p, order) {
      FlatMapMembers(models, GetItemsFromModelRef, x);
      var i :| 0 <= i < |models| && x in GetItemsFromModelRef(models[i]);
      if i > 0 {
        assert models[i] == ModelRef(p.subModels[order[i - 1]], Some(order[i - 1]));
      }
    }
  }

  /** `get_items_by_objectid`: the items, across all models, that build the object. */
  function GetItemsByObjectId(p: Package.ThreemfPackage, order: seq<string>, objectId: nat): (r: seq<ItemRef>)
    requires IsEnumeration(order, p.subModels.Keys)
    ensures forall x :: x in r <==> x in GetItems(p, order) && x.item.objectId == objectId
  {
    Filter(GetItems(p, order), (x: ItemRef) => x.item.objectId == objectId)
  }

  /** `get_item_by_uuid`: the first item, root first, whose uuid is the one
      asked for; an item without a uuid never matches. */
  function GetItemByUuid(p: Package.ThreemfPackage, order: seq<string>, uuid: string): (r: Option<ItemRef>)
    requires IsEnumeration(order, p.subModels.Keys)
    ensures var items := GetItems(p, order);
            (r.None? <==> forall i :: 0 <= i < |items| ==> items[i].item.uuid != Some(uuid)) &&
            (r.Some? ==> r.value.item.uuid == Some(uuid) &&
                         exists i :: 0 <= i < |items| && items[i] == r.value &&
                                     forall k :: 0 <= k < i ==> items[k].item.uuid != Some(uuid))
  {
    var items := GetItems(p, order);
    match FirstMatch(items, (x: ItemRef) => x.item.uuid == Some(uuid))
    case Some(i) => Some(items[i])
    case None => None
  }

  /** `get_items` lists the root model's items first. */
  lemma GetItemsRootFirst(p: Package.ThreemfPackage, order: seq<string>)
    requires IsEnumeration(order, p.subModels.Keys)
    ensures |GetItems(p, order)| >= |p.root.build.item|
    ensures GetItems(p, order)[..|p.root.build.item|] == GetItemsFromModel(p.root)
  {
    var models := IterModels(p, order);
    assert models == [models[0]] + models[1..];
    FlatMapAppend([models[0]], models[1..], GetItemsFromModelRef);
    assert FlatMap([models[0]], GetItemsFromModelRef) == GetItemsFromModelRef(models[0]) by {
      assert [models[0]][..0] == [];
    }
  }

  /** A root-model item with the uuid is found whatever the sub-models hold. */
  lemma ItemByUuidPrefersRoot(p: Package.ThreemfPackage, order: seq<string>, uuid: string, k: nat)
    requires IsEnumeration(order, p.subModels.Keys)
    requires k < |p.root.build.item| && p.root.build.item[k].uuid == Some(uuid)
    requires forall j :: 0 <= j < k ==> p.root.build.item[j].uuid != Some(uuid)
    ensures GetItemByUuid(p, order, uuid) == Some(ItemRef(p.root.build.item[k], None))
  {
    GetItemsRootFirst(p, order);
    var items := GetItems(p, order);
    assert forall j :: 0 <= j <= k ==> items[j] == GetItemsFromModel(p.root)[j];
    var r := GetItemByUuid(p, order, uuid);
    var i :| 0 <= i < |items| && items[i] == r.value && forall j :: 0 <= j < i ==> items[j].item.uuid != Some(uuid);
    assert items[k].item.uuid == Some(uuid);
    assert i == k;
  }
}
