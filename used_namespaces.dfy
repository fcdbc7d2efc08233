/** `Model::used_namespaces` of the newer crate: the namespaces a model's
    content needs declared when it is written, always starting with the core
    namespace and followed, in a fixed order, by the Production, beam lattice
    and triangle-set namespaces when something in the model uses them. */
module UsedNamespaces {
  import opened Wrappers
  import opened CoreTypes
  import opened ThreemfNamespaces

  predicate ProdItem(item: Item) {
    item.path.Some? || item.uuid.Some?
  }

  predicate ProdComponent(c: Component) {
    c.path.Some? || c.uuid.Some?
  }

  predicate AnyProdComponent(cs: seq<Component>) {
    exists k :: 0 <= k < |cs| && ProdComponent(cs[k])
  }

  /** An object uses the Production extension through its own uuid or a
      component with a path or uuid. */
  predicate ProdObject(o: Object) {
    o.uuid.Some? || (o.components.Some? && AnyProdComponent(o.components.value.component))
  }

  /** Something in the model is a Production attribute: the build's uuid, an
      item's path or uuid, an object's uuid, or a component's path or uuid. */
  predicate UsesProd(m: Model) {
    m.build.uuid.Some? ||
    (exists i :: 0 <= i < |m.build.item| && ProdItem(m.build.item[i])) ||
    (exists j :: 0 <= j < |m.resources.objects| && ProdObject(m.resources.objects[j]))
  }

  predicate UsesBeamLattice(m: Model) {
    exists j :: 0 <= j < |m.resources.objects| && m.resources.objects[j].mesh.Some? &&
                m.resources.objects[j].mesh.value.beamLattice.Some?
  }

  predicate UsesTriangleSets(m: Model) {
    exists j :: 0 <= j < |m.resources.objects| && m.resources.objects[j].mesh.Some? &&
                m.resources.objects[j].mesh.value.triangleSets.Some?
  }

  /** The position of a namespace in the list `used_namespaces` builds. */
  function Rank(ns: ThreemfNamespace): nat {
    match ns
    case Core => 0
    case Prod => 1
    case BeamLattice => 2
    case CoreTriangleSet => 3
    case Boolean => 4
  }

  /** The namespaces the model uses: core always, then each extension in
      use, strictly in the order Core, Prod, BeamLattice, CoreTriangleSet;
      the boolean-operations namespace is never among them. */
  function NamespacesFor(m: Model): (used: seq<ThreemfNamespace>)
    ensures |used| >= 1 && used[0] == Core
    ensures Prod in used <==> UsesProd(m)
    ensures ThreemfNamespace.BeamLattice in used <==> UsesBeamLattice(m)
    ensures CoreTriangleSet in used <==> UsesTriangleSets(m)
    ensures Boolean !in used
    ensures forall i, j :: 0 <= i < j < |used| ==> Rank(used[i]) < Rank(used[j])
  {
    [Core] + (if UsesProd(m) then [Prod] else []) + (if UsesBeamLattice(m) then [ThreemfNamespace.BeamLattice] else [])
      + (if UsesTriangleSets(m) then [CoreTriangleSet] else [])
  }

  /** The order makes the list duplicate-free. */
  lemma NamespacesDistinct(m: Model)
    ensures forall i, j :: 0 <= i < j < |NamespacesFor(m)| ==> NamespacesFor(m)[i] != NamespacesFor(m)[j]
  {
  }

  /** A model with none of the extensions' attributes or elements declares only the core namespace. */
  lemma PlainModelUsesCore(m: Model)
    requires !UsesProd(m) && !UsesBeamLattice(m) && !UsesTriangleSets(m)
    ensures NamespacesFor(m) == [Core]
  {
  }

  /** `uses_prod_ns`: the build's uuid, then the items, then each object and
      its components, returning as soon as a Production attribute is found. */
  method UsesProdNs(m: Model) returns (b: bool)
    ensures b == UsesProd(m)
  {
    if m.build.uuid.Some? {
      return true;
    }
    var items := m.build.item;
    for i := 0 to |items|
      invariant forall k :: 0 <= k < i ==> !ProdItem(items[k])
    {
      if items[i].path.Some? || items[i].uuid.Some? {
        return true;
      }
    }
    var objects := m.resources.objects;
    for j := 0 to |objects|
      invariant forall k :: 0 <= k < j ==> !ProdObject(objects[k])
    {
      if objects[j].uuid.Some? {
        return true;
      }
      match objects[j].components {
        case Some(components) =>
          var cs := components.component;
          for c := 0 to |cs|
            invariant forall k :: 0 <= k < c ==> !ProdComponent(cs[k])
          {
            if cs[c].path.Some? || cs[c].uuid.Some? {
              return true;
            }
          }
        case None =>
      }
    }
    return false;
  }

  /** `uses_beamlattice_ns` */
  method UsesBeamLatticeNs(m: Model) returns (b: bool)
    ensures b == UsesBeamLattice(m)
  {
    var objects := m.resources.objects;
    for j := 0 to |objects|
      invariant forall k :: 0 <= k < j ==> !(objects[k].mesh.Some? && objects[k].mesh.value.beamLattice.Some?)
    {
      match objects[j].mesh {
        case None =>
        case Some(mesh) =>
          if mesh.beamLattice.Some? {
            return true;
          }
      }
    }
    return false;
  }

  /** `uses_triangleset_ns` */
  method UsesTrianglesetNs(m: Model) returns (b: bool)
    ensures b == UsesTriangleSets(m)
  {
    var objects := m.resources.objects;
    for j := 0 to |objects|
      invariant forall k :: 0 <= k < j ==> !(objects[k].mesh.Some? && objects[k].mesh.value.triangleSets.Some?)
    {
      if objects[j].mesh.Some? && objects[j].mesh.value.triangleSets.Some? {
        return true;
      }
    }
    return false;
  }

  /** `used_namespaces` */
  method UsedNamespacesOf(m: Model) returns (used: seq<ThreemfNamespace>)
    ensures used == NamespacesFor(m)
  {
    used := [Core];
    var prod := UsesProdNs(m);
    if prod {
      used := used + [Prod];
    }
    var lattice := UsesBeamLatticeNs(m);
    if lattice {
      used := used + [ThreemfNamespace.BeamLattice];
    }
    var triangleSets := UsesTrianglesetNs(m);
    if triangleSets {
      used := used + [CoreTriangleSet];
    }
  }
}
