/** Reading a whole package into memory (`ThreemfPackage::from_reader`): the
    content types, the root relationships file and (optionally) every other
    relationships file are read first, then every relationship's part is
    handed to the package processor. */
module PackageReader {
  import opened Wrappers
  import opened Collections
  import opened Zip
  import opened IoError
  import opened Codecs
  import CT = ContentTypes
  import Rel = Relationships
  import CoreTypes
  import Package
  import opened PackageProcessor
  import opened ZipUtils

  /** What is known once the root relationships file is read. */
  datatype Header = Header(
    contentTypes: CT.ContentTypes,
    rootRelsFilename: string,
    rootRels: Rel.Relationships,
    rootModelPath: string)

  /** What is known before any part is processed. */
  datatype Opened = Opened(header: Header, table: map<string, Rel.Relationships>)

  /** The archive name of a discovered path: the path without its leading
      "/" (every discovered path has one, see `Discovered`). */
  function ArchiveName(p: string): string {
    if p == [] then p else p[1..]
  }

  /** Reading the discovered relationships files one after the other into
      `table`, each stored under its "/"-prefixed path and read from the
      archive without the "/". */
  function LoadRelationshipFiles(zip: ZipArchive, codec: Codec, d: XmlDeserializer, table: map<string, Rel.Relationships>,
                                 paths: seq<string>): Result<map<string, Rel.Relationships>, Error>
  {
    if paths == [] then Ok(table)
    else
      var last := paths[|paths| - 1];
      var t :- LoadRelationshipFiles(zip, codec, d, table, paths[..|paths| - 1]);
      var rels :- RelationshipsFromZipByName(zip, ArchiveName(last), codec, d);
      Ok(t[last := rels])
  }

  /** Every discovered path has the leading "/" that is cut off before reading it. */
  lemma DiscoveredSlashed(files: seq<ZipFile>, extension: string, rootRels: string)
    ensures forall p :: p in RelationshipFiles(files, extension, rootRels) ==> |p| >= 1 && p[0] == '/'
  {
    forall p | p in RelationshipFiles(files, extension, rootRels)
      ensures |p| >= 1 && p[0] == '/'
    {
      DiscoveredShape(files, extension, rootRels, p);
    }
  }

  /** The root model path is the first Model target of the root relationships. */
  function RootModelPath(rootRels: Rel.Relationships): Result<string, Error> {
    match FirstModelTarget(rootRels)
    case None => Err(ReadError("Root model relationship not found"))
    case Some(p) => Ok(p)
  }

  /** The content types, the root relationships file and the root model path. */
  function OpenHeader(zip: ZipArchive, codec: Codec, d: XmlDeserializer): Result<Header, Error> {
    var setup :- SetupArchiveAndContentTypes(zip, codec, d);
    var rootRels :- RelationshipsFromZipByName(zip, setup.rootRelsFilename, codec, d);
    var rootModelPath :- RootModelPath(rootRels);
    Ok(Header(setup.contentTypes, setup.rootRelsFilename, rootRels, rootModelPath))
  }

  /** The relationships files other than the root one, as discovered in the archive. */
  function Discovered(zip: ZipArchive, h: Header): (r: seq<string>)
    ensures forall p :: p in r ==> |p| >= 1 && p[0] == '/'
  {
    DiscoveredSlashed(zip.files, DetermineRelationshipsExtension(h.contentTypes), h.rootRelsFilename);
    RelationshipFiles(zip.files, DetermineRelationshipsExtension(h.contentTypes), h.rootRelsFilename)
  }

  /** The relationships table: the root file, and the discovered ones when
      sub-models are processed. */
  function OpenTable(zip: ZipArchive, processSubModels: bool, codec: Codec, d: XmlDeserializer, h: Header)
    : Result<map<string, Rel.Relationships>, Error>
  {
    var table := map[h.rootRelsFilename := h.rootRels];
    if processSubModels then LoadRelationshipFiles(zip, codec, d, table, Discovered(zip, h))
    else Ok(table)
  }

  /** Everything `from_reader` does before the processor runs. */
  function OpenRelationships(zip: ZipArchive, processSubModels: bool, codec: Codec, d: XmlDeserializer): Result<Opened, Error> {
    var h :- OpenHeader(zip, codec, d);
    var table :- OpenTable(zip, processSubModels, codec, d, h);
    Ok(Opened(h, table))
  }

  /** The processor's final state when the relationships files are visited in
      `order`, with the relationships table handed over at the end. */
  function ReadState(zip: ZipArchive, processSubModels: bool, codec: Codec, d: XmlDeserializer, order: seq<string>)
    : Result<ProcessorState, Error>
  {
    var o :- OpenRelationships(zip, processSubModels, codec, d);
    var s :- ProcessInOrder(Initial(o.header.contentTypes), zip, codec, d, o.header.rootModelPath, o.table, order);
    Ok(s.(relationships := o.table))
  }

  /** The package carries exactly the processor's final state. */
  ghost predicate Holds(p: Package.ThreemfPackage, s: ProcessorState) {
    s.root == Some(p.root) && p.subModels == s.subModels && p.thumbnails == s.thumbnails &&
    p.unknownParts == s.unknownParts && p.relationships == s.relationships && p.contentTypes == s.contentTypes
  }

  // ------------------------------------------------------------------ lemmas

  lemma {:induction false} LoadRelationshipFilesStopsAtError(zip: ZipArchive, codec: Codec, d: XmlDeserializer,
                                                             table: map<string, Rel.Relationships>, a: seq<string>, b: seq<string>)
    requires LoadRelationshipFiles(zip, codec, d, table, a).Err?
    ensures LoadRelationshipFiles(zip, codec, d, table, a + b) == LoadRelationshipFiles(zip, codec, d, table, a)
  {
    if b == [] {
      assert a + b == a;
    } else {
      var ab, c := a + b, b[..|b| - 1];
      assert LoadRelationshipFiles(zip, codec, d, table, a + c).Err? by {
        LoadRelationshipFilesStopsAtError(zip, codec, d, table, a, c);
      }
      assert ab[..|ab| - 1] == a + c && ab[..|ab|] == ab;
      assert LoadRelationshipFiles(zip, codec, d, table, ab) == LoadRelationshipFiles(zip, codec, d, table, a) by {
        LoadRelationshipFilesStopsAtError(zip, codec, d, table, a, c);
        LoadRelationshipFilesPrefix(zip, codec, d, table, ab, |ab|);
      }
    }
  }

  /** Reading one more discovered relationships file. */
  lemma LoadRelationshipFilesPrefix(zip: ZipArchive, codec: Codec, d: XmlDeserializer,
                                    table: map<string, Rel.Relationships>, paths: seq<string>, n: nat)
    requires 0 < n <= |paths|
    ensures LoadRelationshipFiles(zip, codec, d, table, paths[..n]) ==
              var prev := LoadRelationshipFiles(zip, codec, d, table, paths[..n - 1]);
              var rels := RelationshipsFromZipByName(zip, ArchiveName(paths[n - 1]), codec, d);
              if prev.Err? then Err(prev.error)
              else if rels.Err? then Err(rels.error)
              else Ok(prev.value[paths[n - 1] := rels.value])
  {
    assert paths[..n][..n - 1] == paths[..n - 1];
  }

  /** Once a prefix of the paths fails, reading the rest changes nothing. */
  lemma {:induction false} LoadRelationshipFilesStopsAt(zip: ZipArchive, codec: Codec, d: XmlDeserializer,
                                                        table: map<string, Rel.Relationships>, paths: seq<string>, n: nat)
    requires n <= |paths|
    requires LoadRelationshipFiles(zip, codec, d, table, paths[..n]).Err?
    ensures LoadRelationshipFiles(zip, codec, d, table, paths) == LoadRelationshipFiles(zip, codec, d, table, paths[..n])
    decreases |paths|
  {
    if n < |paths| {
      var init := paths[..|paths| - 1];
      assert init[..n] == paths[..n];
      LoadRelationshipFilesStopsAt(zip, codec, d, table, init, n);
    } else {
      assert paths[..n] == paths;
    }
  }

  /** Reading the file after a successful prefix: an error ends the whole
      load with it, and otherwise the file joins the table. */
  lemma LoadRelationshipFilesStep(zip: ZipArchive, codec: Codec, d: XmlDeserializer,
                                  table: map<string, Rel.Relationships>, paths: seq<string>, i: nat,
                                  t: map<string, Rel.Relationships>)
    requires i < |paths|
    requires LoadRelationshipFiles(zip, codec, d, table, paths[..i]) == Ok(t)
    ensures var rels := RelationshipsFromZipByName(zip, ArchiveName(paths[i]), codec, d);
            (rels.Err? ==> LoadRelationshipFiles(zip, codec, d, table, paths) == Err(rels.error)) &&
            (rels.Ok? ==> LoadRelationshipFiles(zip, codec, d, table, paths[..i + 1]) == Ok(t[paths[i] := rels.value]))
  {
    var rels := RelationshipsFromZipByName(zip, ArchiveName(paths[i]), codec, d);
    var next := LoadRelationshipFiles(zip, codec, d, table, paths[..i + 1]);
    assert next == if rels.Err? then Err(rels.error) else Ok(t[paths[i] := rels.value]) by {
      LoadRelationshipFilesPrefix(zip, codec, d, table, paths, i + 1);
    }
    if rels.Err? {
      LoadRelationshipFilesStopsAt(zip, codec, d, table, paths, i + 1);
    }
  }

  /** The loaded table holds the starting keys and exactly the paths read. */
  lemma {:induction false} LoadRelationshipFilesKeys(zip: ZipArchive, codec: Codec, d: XmlDeserializer,
                                                     table: map<string, Rel.Relationships>, paths: seq<string>)
    requires LoadRelationshipFiles(zip, codec, d, table, paths).Ok?
    ensures LoadRelationshipFiles(zip, codec, d, table, paths).value.Keys == table.Keys + set p | p in paths
    ensures forall p :: p in table && p !in paths ==> LoadRelationshipFiles(zip, codec, d, table, paths).value[p] == table[p]
  {
    if paths != [] {
      var init, last := paths[..|paths| - 1], paths[|paths| - 1];
      var t := LoadRelationshipFiles(zip, codec, d, table, init);
      var rels := RelationshipsFromZipByName(zip, ArchiveName(last), codec, d);
      assert t.Ok? && rels.Ok?;
      assert LoadRelationshipFiles(zip, codec, d, table, paths).value == t.value[last := rels.value];
      LoadRelationshipFilesKeys(zip, codec, d, table, init);
      assert (set p | p in paths) == (set p | p in init) + {last};
    }
  }

  /** Opening fails with "Root model relationship not found" when the root
      relationships file has no Model relationship. */
  lemma MissingRootModel(zip: ZipArchive, processSubModels: bool, codec: Codec, d: XmlDeserializer, order: seq<string>)
    requires SetupArchiveAndContentTypes(zip, codec, d).Ok?
    requires var name := SetupArchiveAndContentTypes(zip, codec, d).value.rootRelsFilename;
             var rootRels := RelationshipsFromZipByName(zip, name, codec, d);
             rootRels.Ok? && forall i :: 0 <= i < |rootRels.value.relationships| ==>
                                         rootRels.value.relationships[i].relationshipType != Rel.Model
    ensures OpenRelationships(zip, processSubModels, codec, d) == Err(ReadError("Root model relationship not found"))
    ensures ReadState(zip, processSubModels, codec, d, order) == Err(ReadError("Root model relationship not found"))
  {
  }

  /** The header names the root relationships file, and the root model path
      is the target of its first Model relationship. */
  lemma HeaderFacts(zip: ZipArchive, codec: Codec, d: XmlDeserializer)
    requires OpenHeader(zip, codec, d).Ok?
    ensures var h := OpenHeader(zip, codec, d).value;
            SetupArchiveAndContentTypes(zip, codec, d).Ok? &&
            h.rootRelsFilename == SetupArchiveAndContentTypes(zip, codec, d).value.rootRelsFilename &&
            h.contentTypes == SetupArchiveAndContentTypes(zip, codec, d).value.contentTypes &&
            RelationshipsFromZipByName(zip, h.rootRelsFilename, codec, d) == Ok(h.rootRels) &&
            FirstModelTarget(h.rootRels) == Some(h.rootModelPath)
  {
  }

  /** Without sub-model processing the root relationships file is the only
      one in the table; with it the table also holds exactly the discovered
      relationships files. */
  lemma OpenedTable(zip: ZipArchive, processSubModels: bool, codec: Codec, d: XmlDeserializer, h: Header)
    requires OpenHeader(zip, codec, d) == Ok(h)
    requires OpenTable(zip, processSubModels, codec, d, h).Ok?
    ensures var table := OpenTable(zip, processSubModels, codec, d, h).value;
            h.rootRelsFilename in table && table[h.rootRelsFilename] == h.rootRels &&
            (!processSubModels ==> table.Keys == {h.rootRelsFilename}) &&
            (processSubModels ==> table.Keys == {h.rootRelsFilename} + set p | p in Discovered(zip, h))
  {
    if processSubModels {
      assert h.rootRelsFilename !in Discovered(zip, h) by {
        HeaderFacts(zip, codec, d);
        assert h.rootRelsFilename[0] == '_';
      }
      LoadedTable(zip, codec, d, h.rootRelsFilename, h.rootRels, Discovered(zip, h));
    }
  }

  /** Loading files other than the root one onto the table that holds only
      the root file keeps the root entry and adds exactly the files read. */
  lemma LoadedTable(zip: ZipArchive, codec: Codec, d: XmlDeserializer, rootName: string, rootRels: Rel.Relationships,
                    paths: seq<string>)
    requires rootName !in paths
    requires LoadRelationshipFiles(zip, codec, d, map[rootName := rootRels], paths).Ok?
    ensures var table := LoadRelationshipFiles(zip, codec, d, map[rootName := rootRels], paths).value;
            rootName in table && table[rootName] == rootRels && table.Keys == {rootName} + set p | p in paths
  {
    LoadRelationshipFilesKeys(zip, codec, d, map[rootName := rootRels], paths);
  }

  /** A relationship of a visited file is among the flattened relationships. */
  lemma {:induction false} FlattenContains(table: map<string, Rel.Relationships>, order: seq<string>, k: string, i: nat)
    requires k in order && k in table && i < |table[k].relationships|
    ensures table[k].relationships[i] in Flatten(table, order)
  {
    var last := order[|order| - 1];
    if last != k {
      FlattenContains(table, order[..|order| - 1], k, i);
    }
  }

  /** A successful read always has a root model, so the processor's
      `expect("Root model should be set")` never fires: the root
      relationships file is visited, and its first Model relationship
      targets the root model path. */
  lemma ReadSetsRoot(zip: ZipArchive, processSubModels: bool, codec: Codec, d: XmlDeserializer, order: seq<string>)
    requires OpenRelationships(zip, processSubModels, codec, d).Ok?
    requires IsEnumeration(order, OpenRelationships(zip, processSubModels, codec, d).value.table.Keys)
    requires ReadState(zip, processSubModels, codec, d, order).Ok?
    ensures ReadState(zip, processSubModels, codec, d, order).value.root.Some?
  {
    var o := OpenRelationships(zip, processSubModels, codec, d).value;
    var h := o.header;
    assert h.rootRelsFilename in o.table && o.table[h.rootRelsFilename] == h.rootRels by {
      OpenedTable(zip, processSubModels, codec, d, h);
    }
    var i :| 0 <= i < |h.rootRels.relationships| && h.rootRels.relationships[i].relationshipType == Rel.Model &&
             h.rootModelPath == h.rootRels.relationships[i].target by {
      HeaderFacts(zip, codec, d);
    }
    var rels := Flatten(o.table, order);
    assert h.rootRels.relationships[i] in rels by {
      FlattenContains(o.table, order, h.rootRelsFilename, i);
    }
    var k :| 0 <= k < |rels| && rels[k] == h.rootRels.relationships[i];
    ProcessAllKeys(Initial(h.contentTypes), zip, codec, d, h.rootModelPath, rels);
  }

  /** A successful read holds what the archive holds: the root model is the
      one decoded from the root model path, and every sub-model, thumbnail and
      unknown part is what the part under its key decodes to. Its keys are
      exactly the targets of the relationships of each kind. */
  lemma ReadFaithful(zip: ZipArchive, processSubModels: bool, codec: Codec, d: XmlDeserializer, order: seq<string>)
    requires ReadState(zip, processSubModels, codec, d, order).Ok?
    ensures var o := OpenRelationships(zip, processSubModels, codec, d).value;
            var s := ReadState(zip, processSubModels, codec, d, order).value;
            Faithful(s, zip, codec, d, o.header.rootModelPath) &&
            KeysAfter(Initial(o.header.contentTypes).(relationships := o.table), s, Flatten(o.table, order), o.header.rootModelPath)
  {
    var o := OpenRelationships(zip, processSubModels, codec, d).value;
    var h := o.header;
    var rels := Flatten(o.table, order);
    InitialFaithful(h.contentTypes, zip, codec, d, h.rootModelPath);
    ProcessAllFaithful(Initial(h.contentTypes), zip, codec, d, h.rootModelPath, rels);
    ProcessAllKeys(Initial(h.contentTypes), zip, codec, d, h.rootModelPath, rels);
  }

  // ----------------------------------------------------------------- methods

  /** The first part of `from_reader`: the content types, the root
      relationships file and the root model path. */
  method ReadHeader(zip: ZipArchive, codec: Codec, d: XmlDeserializer) returns (r: Result<Header, Error>)
    ensures r == OpenHeader(zip, codec, d)
  {
    var setup := SetupArchiveAndContentTypes(zip, codec, d);
    if setup.Err? {
      return Err(setup.error);
    }
    var contentTypes := setup.value.contentTypes;
    var rootRelsFilename := setup.value.rootRelsFilename;
    var rootRels := RelationshipsFromZipByName(zip, rootRelsFilename, codec, d);
    if rootRels.Err? {
      return Err(rootRels.error);
    }
    var rootModelRel := FirstModelTarget(rootRels.value);
    if rootModelRel.None? {
      return Err(ReadError("Root model relationship not found"));
    }
    r := Ok(Header(contentTypes, rootRelsFilename, rootRels.value, rootModelRel.value));
  }

  /** The relationships table: the root file, then, when sub-models are
      processed, every discovered relationships file in discovery order. */
  method ReadTable(zip: ZipArchive, processSubModels: bool, codec: Codec, d: XmlDeserializer, h: Header)
    returns (r: Result<map<string, Rel.Relationships>, Error>)
    ensures r == OpenTable(zip, processSubModels, codec, d, h)
  {
    var relationships := map[h.rootRelsFilename := h.rootRels];
    if !processSubModels {
      return Ok(relationships);
    }
    var relsExt := DetermineRelationshipsExtension(h.contentTypes);
    var relFiles := DiscoverRelationshipFiles(zip, relsExt, h.rootRelsFilename);
    var paths := relFiles.value;
    ghost var table0 := relationships;
    assert OpenTable(zip, processSubModels, codec, d, h) == LoadRelationshipFiles(zip, codec, d, table0, paths) by {
      assert paths == Discovered(zip, h);
    }
    assert paths[..0] == [];
    for i := 0 to |paths|
      invariant LoadRelationshipFiles(zip, codec, d, table0, paths[..i]) == Ok(relationships)
    {
      var relFilePath := paths[i];
      assert relFilePath in paths;
      var rels := RelationshipsFromZipByName(zip, relFilePath[1..], codec, d);
      assert relFilePath[1..] == ArchiveName(relFilePath);
      LoadRelationshipFilesStep(zip, codec, d, table0, paths, i, relationships);
      if rels.Err? {
        return Err(rels.error);
      }
      relationships := relationships[relFilePath := rels.value];
    }
    assert paths[..|paths|] == paths;
    r := Ok(relationships);
  }

  /** The part of `from_reader` before the processor runs. */
  method Open(zip: ZipArchive, processSubModels: bool, codec: Codec, d: XmlDeserializer) returns (r: Result<Opened, Error>)
    ensures r == OpenRelationships(zip, processSubModels, codec, d)
  {
    var h := ReadHeader(zip, codec, d);
    if h.Err? {
      return Err(h.error);
    }
    var table := ReadTable(zip, processSubModels, codec, d, h.value);
    if table.Err? {
      return Err(table.error);
    }
    r := Ok(Opened(h.value, table.value));
  }

  /** `ThreemfPackage::from_reader`. The relationships map is walked in its
      iteration order, reported as the ghost `order`. */
  method FromReader(zip: ZipArchive, processSubModels: bool, codec: Codec, d: XmlDeserializer)
    returns (r: Result<Package.ThreemfPackage, Error>, ghost order: seq<string>)
    ensures OpenRelationships(zip, processSubModels, codec, d).Ok? ==>
              IsEnumeration(order, OpenRelationships(zip, processSubModels, codec, d).value.table.Keys)
    ensures var expected := ReadState(zip, processSubModels, codec, d, order);
            (r.Ok? <==> expected.Ok?) &&
            (r.Err? ==> r.error == expected.error) &&
            (r.Ok? ==> Holds(r.value, expected.value))
  {
    order := [];
    var opening := Open(zip, processSubModels, codec, d);
    if opening.Err? {
      return Err(opening.error), order;
    }
    var relationships := opening.value.table;
    var processor := new ThreemfPackageProcessor(opening.value.header.contentTypes);
    var processed;
    processed, order := ProcessRelationships(zip, relationships, processor, codec, d, opening.value.header.rootModelPath);
    if processed.Err? {
      return Err(processed.error), order;
    }
    ReadSetsRoot(zip, processSubModels, codec, d, order);
    processor.SetRelationships(relationships);
    var package := processor.IntoThreemfPackage();
    r := Ok(package);
  }
}
