/** The query layer of the older crate (`io::query`). Its model iteration,
    object listing, mesh and composed-part filters and typed-ref constructors
    are those of the newer crate's query layer (module Query); what it adds is
    the beam-lattice filter and its typed ref. */
module LegacyQuery {
  import opened Wrappers
  import opened Collections
  import opened CoreTypes
  import Package
  import Q = Query

  /** An object whose mesh exists and carries a beam lattice. */
  function HasBeamLattice(o: Object): bool {
    o.mesh.Some? && o.mesh.value.beamLattice.Some?
  }

  /** `get_beam_lattice_objects_from_model_ref`: the objects whose mesh has a
      beam lattice, in order, with the model's path. */
  function GetBeamLatticeObjectsFromModelRef(mr: Q.ModelRef): (r: seq<Q.ObjectRef>)
    ensures forall x :: x in r <==>
              x.path == mr.path && x.obj in mr.model.resources.objects &&
              x.obj.mesh.Some? && x.obj.mesh.value.beamLattice.Some?
  {
    Q.Tag(Q.Filter(mr.model.resources.objects, HasBeamLattice), mr.path)
  }

  /** The beam-lattice filter keeps the input order: the objects of `a + b`
      give those of `a` followed by those of `b`. */
  lemma BeamLatticeFilterKeepsOrder(a: seq<Object>, b: seq<Object>, path: Option<string>, m: Model)
    requires m.resources.objects == a + b
    ensures GetBeamLatticeObjectsFromModelRef(Q.ModelRef(m, path)) ==
              Q.Tag(Q.Filter(a, HasBeamLattice), path) + Q.Tag(Q.Filter(b, HasBeamLattice), path)
  {
    Q.FilterAppend(a, b, HasBeamLattice);
  }

  /** Every beam-lattice object is also reported by the mesh filter. */
  lemma BeamLatticeObjectsAreMeshObjects(mr: Q.ModelRef, x: Q.ObjectRef)
    requires x in GetBeamLatticeObjectsFromModelRef(mr)
    ensures x in Q.GetMeshObjectsFromModelRef(mr)
  {
  }

  /** `BeamLatticeObjectRef::new`, for an object whose mesh has a lattice
      (the source unwraps both). */
  function BeamLatticeObjectRefOf(o: Q.ObjectRef): (r: Q.GenericObjectRef<BeamLattice>)
    requires o.obj.mesh.Some? && o.obj.mesh.value.beamLattice.Some?
    ensures r == Q.RefOf(o, o.obj.mesh.value.beamLattice.value)
    ensures o.obj.objectType.None? ==> r.objectType == CoreEnums.ObjectType.Model
  {
    Q.RefOf(o, o.obj.mesh.value.beamLattice.value)
  }

  function BeamLatticeObjectRefs(refs: seq<Q.ObjectRef>): (r: seq<Q.GenericObjectRef<BeamLattice>>)
    requires forall i :: 0 <= i < |refs| ==> refs[i].obj.mesh.Some? && refs[i].obj.mesh.value.beamLattice.Some?
    ensures |r| == |refs| && forall i :: 0 <= i < |refs| ==> r[i] == BeamLatticeObjectRefOf(refs[i])
  {
    seq(|refs|, i requires 0 <= i < |refs| => BeamLatticeObjectRefOf(refs[i]))
  }

  /** Everything the package-wide beam-lattice filter collects has a lattice. */
  lemma AllBeamLattices(models: seq<Q.ModelRef>)
    ensures forall i :: 0 <= i < |Q.FlatMap(models, GetBeamLatticeObjectsFromModelRef)| ==>
              var o := Q.FlatMap(models, GetBeamLatticeObjectsFromModelRef)[i].obj;
              o.mesh.Some? && o.mesh.value.beamLattice.Some?
  {
    var refs := Q.FlatMap(models, GetBeamLatticeObjectsFromModelRef);
    forall i | 0 <= i < |refs| ensures refs[i].obj.mesh.Some? && refs[i].obj.mesh.value.beamLattice.Some? {
      Q.FlatMapMembers(models, GetBeamLatticeObjectsFromModelRef, refs[i]);
    }
  }

  /** `get_beam_lattice_objects`: the beam-lattice objects of every model, root first. */
  function GetBeamLatticeObjects(p: Package.ThreemfPackage, order: seq<string>): seq<Q.GenericObjectRef<BeamLattice>>
    requires IsEnumeration(order, p.subModels.Keys)
  {
    AllBeamLattices(Q.IterModels(p, order));
    BeamLatticeObjectRefs(Q.FlatMap(Q.IterModels(p, order), GetBeamLatticeObjectsFromModelRef))
  }

  /** The package-wide beam-lattice filter reports exactly the objects of
      the package's models whose mesh has a lattice, under their model's path. */
  lemma BeamLatticeObjectsMembers(p: Package.ThreemfPackage, order: seq<string>, x: Q.ObjectRef)
    requires IsEnumeration(order, p.subModels.Keys)
    ensures x in Q.FlatMap(Q.IterModels(p, order), GetBeamLatticeObjectsFromModelRef) <==>
              x in Q.GetObjects(p, order) && HasBeamLattice(x.obj)
  {
    var models := Q.IterModels(p, order);
    Q.FlatMapMembers(models, GetBeamLatticeObjectsFromModelRef, x);
    Q.TypedRefsMembers(p, order, x);
    Q.FlatMapMembers(models, Q.GetMeshObjectsFromModelRef, x);
  }
}
