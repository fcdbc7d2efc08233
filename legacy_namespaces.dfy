/** The namespaces of the 3MF core specification and of the extensions the
    older crate supports (no boolean operations), with the prefix the library
    declares them under. */
module LegacyNamespaces {
  import opened Wrappers

  const CoreNs := "http://schemas.microsoft.com/3dmanufacturing/core/2015/02"
  const CoreTriangleSetNs := "http://schemas.microsoft.com/3dmanufacturing/trianglesets/2021/07"
  const CoreTriangleSetPrefix := "t"
  const ProdNs := "http://schemas.microsoft.com/3dmanufacturing/production/2015/06"
  const ProdPrefix := "p"
  const BeamLatticeNs := "http://schemas.microsoft.com/3dmanufacturing/beamlattice/2017/02"
  const BeamLatticePrefix := "b"
  const BeamLatticeBallsNs := "http://schemas.microsoft.com/3dmanufacturing/beamlattice/balls/2020/07"
  const BeamLatticeBallsPrefix := "b2"

  datatype ThreemfNamespace = Core | Prod | BeamLattice | CoreTriangleSet

  function Uri(ns: ThreemfNamespace): string {
    match ns
    case Core => CoreNs
    case Prod => ProdNs
    case BeamLattice => BeamLatticeNs
    case CoreTriangleSet => CoreTriangleSetNs
  }

  /** The prefix the library writes; the core namespace is the default one. */
  function Prefix(ns: ThreemfNamespace): Option<string> {
    match ns
    case Core => None
    case Prod => Some(ProdPrefix)
    case BeamLattice => Some(BeamLatticePrefix)
    case CoreTriangleSet => Some(CoreTriangleSetPrefix)
  }

  /** The attribute declaring the namespace, with a leading space. */
  function XmlnsDeclaration(ns: ThreemfNamespace): string {
    match Prefix(ns)
    case Some(p) => " xmlns:" + p + "=\"" + Uri(ns) + "\""
    case None => " xmlns=\"" + Uri(ns) + "\""
  }

  /** The four namespace URIs are pairwise distinct. */
  lemma UriInjective(a: ThreemfNamespace, b: ThreemfNamespace)
    ensures Uri(a) == Uri(b) ==> a == b
  {
  }

  /** Only the core namespace lacks a prefix, and the prefixes are pairwise distinct. */
  lemma PrefixFacts(a: ThreemfNamespace, b: ThreemfNamespace)
    ensures Prefix(a).None? <==> a == Core
    ensures Prefix(a) == Prefix(b) ==> a == b
  {
  }

  /** The characters following " xmlns": "=" opens the default-namespace form,
      ":" and the prefix open the prefixed one. */
  function DeclarationKey(ns: ThreemfNamespace): string {
    match ns
    case Core => "="
    case Prod => ":p="
    case BeamLattice => ":b="
    case CoreTriangleSet => ":t="
  }

  /** Every declaration starts with " xmlns"; the core one continues with "=",
      the others with ":" and their prefix. */
  lemma DeclarationHasKey(ns: ThreemfNamespace)
    ensures |XmlnsDeclaration(ns)| >= 9 && XmlnsDeclaration(ns)[..6] == " xmlns"
    ensures XmlnsDeclaration(ns)[6] == DeclarationKey(ns)[0]
    ensures ns != Core ==> XmlnsDeclaration(ns)[6..9] == DeclarationKey(ns)
  {
    var d := XmlnsDeclaration(ns);
    match ns
    case Core =>
      assert d == " xmlns=\"" + CoreNs + "\"";
      assert d[..6] == " xmlns" && d[6] == '=';
    case _ =>
      assert d[..6] == " xmlns" && d[6] == ':' && d[7] == Prefix(ns).value[0] && d[8] == '=';
  }

  /** Distinct namespaces are declared by distinct attributes. */
  lemma {:induction false} XmlnsDeclarationInjective(a: ThreemfNamespace, b: ThreemfNamespace)
    ensures XmlnsDeclaration(a) == XmlnsDeclaration(b) ==> a == b
  {
    DeclarationHasKey(a);
    DeclarationHasKey(b);
  }
}
