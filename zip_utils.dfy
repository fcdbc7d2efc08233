/** The archive helpers shared by the eager and the lazy reader
    (`io::zip_utils`): reading the content types, choosing the relationships
    extension and the root relationships name, finding the other
    relationships files, reading a relationships file by name, and walking
    every relationship to hand its part to the package processor. */
module ZipUtils {
  import opened Wrappers
  import opened Collections
  import opened Zip
  import opened IoError
  import opened Codecs
  import CT = ContentTypes
  import Rel = Relationships
  import CoreTypes
  import Utils
  import opened PackageProcessor

  // ------------------------------------------------------------ content types

  /** `parse_content_types`: the decoded "[Content_Types].xml" together with its text. */
  function ParseContentTypes(zip: ZipArchive, codec: Codec, d: XmlDeserializer): (r: Result<(CT.ContentTypes, string), Error>)
    ensures ByName(zip, CT.PartName).Err? ==> r == Err(Zip(FileNotFound))
    ensures ByName(zip, CT.PartName).Ok? && codec.utf8(Contents(ByName(zip, CT.PartName).value)).None? ==> r == Err(Io)
    ensures r.Ok? ==> ByName(zip, CT.PartName).Ok? &&
                      codec.utf8(Contents(ByName(zip, CT.PartName).value)) == Some(r.value.1) &&
                      codec.contentTypes(d, r.value.1) == Ok(r.value.0)
  {
    match ByName(zip, CT.PartName)
    case Err(err) => Err(Zip(err))
    case Ok(file) =>
      var text :- ReadToString(codec, file);
      var contentTypes :- codec.contentTypes(d, text);
      Ok((contentTypes, text))
  }

  /** Index of the first default whose content type is the relationships type. */
  function FirstRelationshipDefault(defaults: seq<CT.DefaultContentTypes>): (r: Option<nat>)
    ensures r.Some? ==> r.value < |defaults| && defaults[r.value].contentType == CT.Relationship &&
                        forall j :: 0 <= j < r.value ==> defaults[j].contentType != CT.Relationship
    ensures r.None? ==> forall j :: 0 <= j < |defaults| ==> defaults[j].contentType != CT.Relationship
  {
    if |defaults| == 0 then None
    else if defaults[0].contentType == CT.Relationship then Some(0)
    else
      match FirstRelationshipDefault(defaults[1..])
      case None => None
      case Some(i) => Some(i + 1)
  }

  /** `determine_relationships_extension`: the extension of the first
      relationships-typed default, or "rels" when there is none. */
  function DetermineRelationshipsExtension(contentTypes: CT.ContentTypes): (r: string)
    ensures (forall j :: 0 <= j < |contentTypes.defaults| ==> contentTypes.defaults[j].contentType != CT.Relationship) ==>
              r == "rels"
    ensures forall i :: 0 <= i < |contentTypes.defaults| && contentTypes.defaults[i].contentType == CT.Relationship &&
                        (forall j :: 0 <= j < i ==> contentTypes.defaults[j].contentType != CT.Relationship) ==>
              r == contentTypes.defaults[i].extension
  {
    match FirstRelationshipDefault(contentTypes.defaults)
    case None => "rels"
    case Some(i) => contentTypes.defaults[i].extension
  }

  /** The root relationships name for an extension: "_rels/." followed by it. */
  function RootRelsFilename(extension: string): string {
    "_rels/." + extension
  }

  datatype Setup = Setup(contentTypes: CT.ContentTypes, contentTypesText: string, rootRelsFilename: string)

  /** `setup_archive_and_content_types`: the content types, their text, and
      the root relationships name derived from them. */
  function SetupArchiveAndContentTypes(zip: ZipArchive, codec: Codec, d: XmlDeserializer): (r: Result<Setup, Error>)
    ensures ParseContentTypes(zip, codec, d).Err? ==> r == Err(ParseContentTypes(zip, codec, d).error)
    ensures r.Ok? <==> ParseContentTypes(zip, codec, d).Ok?
    ensures r.Ok? ==> (r.value.contentTypes, r.value.contentTypesText) == ParseContentTypes(zip, codec, d).value &&
                      r.value.rootRelsFilename == "_rels/." + DetermineRelationshipsExtension(r.value.contentTypes)
  {
    var (contentTypes, text) :- ParseContentTypes(zip, codec, d);
    Ok(Setup(contentTypes, text, RootRelsFilename(DetermineRelationshipsExtension(contentTypes))))
  }

  /** Without a relationships default the root relationships file is the
      conventional "_rels/.rels". */
  lemma DefaultRootRels(zip: ZipArchive, codec: Codec, d: XmlDeserializer)
    requires SetupArchiveAndContentTypes(zip, codec, d).Ok?
    requires var ct := SetupArchiveAndContentTypes(zip, codec, d).value.contentTypes;
             forall j :: 0 <= j < |ct.defaults| ==> ct.defaults[j].contentType != CT.Relationship
    ensures SetupArchiveAndContentTypes(zip, codec, d).value.rootRelsFilename == "_rels/.rels"
  {
  }

  // --------------------------------------------------- relationships discovery

  /** The entries `discover_relationship_files` keeps: files whose enclosed
      name has the relationships extension and is not the root relationships file. */
  predicate IsRelationshipFile(f: ZipFile, extension: string, rootRels: string) {
    f.entry.File? && EnclosedName(f.name).Some? && Utils.Extension(f.name) == Some(extension) && f.name != rootRels
  }

  /** The discovered paths for the entries `files`, in archive order, each
      written with a leading "/". */
  function RelationshipFiles(files: seq<ZipFile>, extension: string, rootRels: string): seq<string> {
    if files == [] then []
    else
      var last := files[|files| - 1];
      RelationshipFiles(files[..|files| - 1], extension, rootRels) +
        (if IsRelationshipFile(last, extension, rootRels) then ["/" + last.name] else [])
  }

  /** `discover_relationship_files`: one pass over the archive by index. The
      entry names are text already, so the path conversion never fails. */
  method DiscoverRelationshipFiles(zip: ZipArchive, extension: string, rootRels: string) returns (r: Result<seq<string>, Error>)
    ensures r == Ok(RelationshipFiles(zip.files, extension, rootRels))
  {
    var relFiles: seq<string> := [];
    for i := 0 to |zip.files|
      invariant relFiles == RelationshipFiles(zip.files[..i], extension, rootRels)
    {
      var file := zip.files[i];
      RelationshipFilesStep(zip.files, i, extension, rootRels);
      if file.entry.File? && EnclosedName(file.name).Some? {
        var path := EnclosedName(file.name).value;
        if Utils.Extension(path) == Some(extension) && path != rootRels {
          relFiles := relFiles + ["/" + path];
        }
      }
    }
    assert zip.files[..|zip.files|] == zip.files;
    r := Ok(relFiles);
  }

  /** One more entry adds its path when it is kept. */
  lemma RelationshipFilesStep(files: seq<ZipFile>, i: nat, extension: string, rootRels: string)
    requires i < |files|
    ensures RelationshipFiles(files[..i + 1], extension, rootRels) ==
              RelationshipFiles(files[..i], extension, rootRels) +
              (if IsRelationshipFile(files[i], extension, rootRels) then ["/" + files[i].name] else [])
  {
    assert files[..i + 1][..i] == files[..i];
  }

  /** `p` is the path discovered for the entry `f`. */
  predicate Discovers(f: ZipFile, extension: string, rootRels: string, p: string) {
    IsRelationshipFile(f, extension, rootRels) && p == "/" + f.name
  }

  /** A path is discovered exactly when it is "/" followed by the name of a
      kept entry. */
  lemma {:induction false} RelationshipFilesMembers(files: seq<ZipFile>, extension: string, rootRels: string, p: string)
    ensures p in RelationshipFiles(files, extension, rootRels) <==>
              exists i :: 0 <= i < |files| && Discovers(files[i], extension, rootRels, p)
  {
    if files != [] {
      var init := files[..|files| - 1];
      var last := files[|files| - 1];
      RelationshipFilesMembers(init, extension, rootRels, p);
      assert p in RelationshipFiles(files, extension, rootRels) <==>
               p in RelationshipFiles(init, extension, rootRels) || Discovers(last, extension, rootRels, p);
      assert forall i :: 0 <= i < |init| ==> init[i] == files[i];
      assert (exists i :: 0 <= i < |files| && Discovers(files[i], extension, rootRels, p)) <==>
               (exists i :: 0 <= i < |init| && Discovers(init[i], extension, rootRels, p)) || Discovers(last, extension, rootRels, p);
    }
  }

  /** Every discovered path starts with "/", names a file with the
      relationships extension, and is never the root relationships file. */
  lemma DiscoveredShape(files: seq<ZipFile>, extension: string, rootRels: string, p: string)
    requires p in RelationshipFiles(files, extension, rootRels)
    ensures |p| >= 1 && p[0] == '/' && p[1..] != rootRels && Utils.Extension(p[1..]) == Some(extension)
    ensures exists i :: 0 <= i < |files| && files[i].name == p[1..] && files[i].entry.File?
  {
    RelationshipFilesMembers(files, extension, rootRels, p);
    var i :| 0 <= i < |files| && Discovers(files[i], extension, rootRels, p);
    assert p[1..] == files[i].name;
  }

  /** `relationships_from_zip_by_name`: the decoded relationships file stored
      under `name`, a ZIP error when there is none. */
  function RelationshipsFromZipByName(zip: ZipArchive, name: string, codec: Codec, d: XmlDeserializer)
    : (r: Result<Rel.Relationships, Error>)
    ensures ByName(zip, name).Err? ==> r == Err(Zip(FileNotFound))
    ensures ByName(zip, name).Ok? && codec.utf8(Contents(ByName(zip, name).value)).None? ==> r == Err(Io)
    ensures ByName(zip, name).Ok? && codec.utf8(Contents(ByName(zip, name).value)).Some? ==>
              r == codec.relationships(d, codec.utf8(Contents(ByName(zip, name).value)).value)
  {
    match ByName(zip, name)
    case Err(err) => Err(Zip(err))
    case Ok(file) =>
      var text :- ReadToString(codec, file);
      codec.relationships(d, text)
  }

  /** The target of the first Model relationship: the readers' root model path. */
  function FirstModelTarget(rels: Rel.Relationships): (r: Option<string>)
    ensures r.Some? <==> exists i :: 0 <= i < |rels.relationships| && rels.relationships[i].relationshipType == Rel.Model
    ensures r.Some? ==> exists i :: 0 <= i < |rels.relationships| && rels.relationships[i].relationshipType == Rel.Model &&
                                    r.value == rels.relationships[i].target &&
                                    forall j :: 0 <= j < i ==> rels.relationships[j].relationshipType != Rel.Model
  {
    FirstModelIn(rels.relationships)
  }

  function FirstModelIn(rels: seq<Rel.Relationship>): (r: Option<string>)
    ensures r.Some? <==> exists i :: 0 <= i < |rels| && rels[i].relationshipType == Rel.Model
    ensures r.Some? ==> exists i :: 0 <= i < |rels| && rels[i].relationshipType == Rel.Model && r.value == rels[i].target &&
                                    forall j :: 0 <= j < i ==> rels[j].relationshipType != Rel.Model
  {
    if |rels| == 0 then None
    else if rels[0].relationshipType == Rel.Model then Some(rels[0].target)
    else
      var r := FirstModelIn(rels[1..]);
      assert forall i :: 0 < i < |rels| ==> rels[i] == rels[1..][i - 1];
      if r.Some? then
        var k :| 0 <= k < |rels[1..]| && rels[1..][k].relationshipType == Rel.Model && r.value == rels[1..][k].target &&
                 forall j :: 0 <= j < k ==> rels[1..][j].relationshipType != Rel.Model;
        assert forall j :: 0 <= j < k + 1 ==> rels[j].relationshipType != Rel.Model by {
          forall j | 0 <= j < k + 1 ensures rels[j].relationshipType != Rel.Model {
            if j > 0 { assert rels[j] == rels[1..][j - 1]; }
          }
        }
        assert rels[k + 1] == rels[1..][k];
        r
      else r
  }

  // ----------------------------------------------------- processing the parts

  /** What one relationship's part decodes to. */
  datatype Loaded = LoadedModel(model: CoreTypes.Model) | LoadedImage(image: CoreTypes.Image) | LoadedBytes(bytes: seq<Byte>)

  /** The message for a relationship that targets a directory entry; it
      prints the entry's `enclosed_name` in debug form. */
  function FolderMessage(name: string): string {
    match EnclosedName(name)
    case Some(p) => "Found a folder \"Some(\"" + p + "\")\" instead of a file"
    case None => "Found a folder \"None\" instead of a file"
  }

  /** The part of one step of `process_relationships` that does not depend on
      what was read before: look the target up with its leading "/" removed,
      refuse a directory, and decode the part as its relationship type asks. */
  function Load(zip: ZipArchive, codec: Codec, d: XmlDeserializer, target: string, kind: Rel.RelationshipType)
    : Result<Loaded, Error>
  {
    var name := Utils.TryStripLeadingSlash(target);
    match ByName(zip, name)
    case Err(err) => Err(Zip(err))
    case Ok(file) =>
      if file.Dir? then Err(ReadError(FolderMessage(name)))
      else
        match kind
        case Thumbnail =>
          var image :- codec.image(file.bytes);
          Ok(LoadedImage(image))
        case Model =>
          var model :- DeserializeModel(codec, d, file);
          Ok(LoadedModel(model))
        case Unknown(_) => Ok(LoadedBytes(file.bytes))
  }

  /** A missing entry is a ZIP error, a directory a read error; otherwise the
      part is the entry's bytes, decoded as an image for a thumbnail and as a
      model for a model, kept as they are for anything else. */
  lemma LoadFacts(zip: ZipArchive, codec: Codec, d: XmlDeserializer, target: string, kind: Rel.RelationshipType)
    ensures var name := Utils.TryStripLeadingSlash(target);
            var r := Load(zip, codec, d, target, kind);
            (ByName(zip, name).Err? ==> r == Err(Zip(FileNotFound))) &&
            (ByName(zip, name) == Ok(Dir) ==> r == Err(ReadError(FolderMessage(name)))) &&
            (ByName(zip, name).Ok? && ByName(zip, name).value.File? ==>
               var bytes := ByName(zip, name).value.bytes;
               match kind
               case Thumbnail => (r.Ok? <==> codec.image(bytes).Ok?) && (r.Ok? ==> r.value == LoadedImage(codec.image(bytes).value))
               case Model => (r.Ok? <==> DeserializeModel(codec, d, File(bytes)).Ok?) &&
                             (r.Ok? ==> r.value == LoadedModel(DeserializeModel(codec, d, File(bytes)).value))
               case Unknown(_) => r == Ok(LoadedBytes(bytes)))
  {
  }

  /** How the processor stores what was loaded for `rel`: a model goes to the
      root exactly when its target is the root model path. */
  function Apply(s: ProcessorState, rel: Rel.Relationship, loaded: Loaded, rootModelPath: string): ProcessorState {
    match loaded
    case LoadedModel(m) => StoreModel(s, rel.target, m, rel.target == rootModelPath)
    case LoadedImage(image) => StoreThumbnail(s, rel.target, image)
    case LoadedBytes(bytes) => StoreUnknown(s, rel.target, bytes)
  }

  /** One step of `process_relationships`. */
  function ProcessOne(s: ProcessorState, zip: ZipArchive, codec: Codec, d: XmlDeserializer, rootModelPath: string, rel: Rel.Relationship)
    : Result<ProcessorState, Error>
  {
    var loaded :- Load(zip, codec, d, rel.target, rel.relationshipType);
    Ok(Apply(s, rel, loaded, rootModelPath))
  }

  /** The load outcome of each relationship, in order. */
  function Loads(zip: ZipArchive, codec: Codec, d: XmlDeserializer, rels: seq<Rel.Relationship>): (r: seq<Result<Loaded, Error>>)
    ensures |r| == |rels|
    ensures forall i :: 0 <= i < |rels| ==> r[i] == Load(zip, codec, d, rels[i].target, rels[i].relationshipType)
  {
    seq(|rels|, i requires 0 <= i < |rels| => Load(zip, codec, d, rels[i].target, rels[i].relationshipType))
  }

  /** Storing the outcomes `loads` of `rels` one after the other, stopping at
      the first failed one. */
  function ApplyAll(s: ProcessorState, rels: seq<Rel.Relationship>, loads: seq<Result<Loaded, Error>>, rootModelPath: string)
    : Result<ProcessorState, Error>
    requires |loads| == |rels|
  {
    if rels == [] then Ok(s)
    else
      var t :- ApplyAll(s, rels[..|rels| - 1], loads[..|rels| - 1], rootModelPath);
      var loaded :- loads[|rels| - 1];
      Ok(Apply(t, rels[|rels| - 1], loaded, rootModelPath))
  }

  /** The steps for `rels` in order, stopping at the first error. */
  function ProcessAll(s: ProcessorState, zip: ZipArchive, codec: Codec, d: XmlDeserializer, rootModelPath: string, rels: seq<Rel.Relationship>)
    : Result<ProcessorState, Error>
  {
    ApplyAll(s, rels, Loads(zip, codec, d, rels), rootModelPath)
  }

  /** The relationships of the files `order` names, file after file. */
  function Flatten(table: map<string, Rel.Relationships>, order: seq<string>): seq<Rel.Relationship> {
    if order == [] then []
    else
      var last := order[|order| - 1];
      Flatten(table, order[..|order| - 1]) + (if last in table then table[last].relationships else [])
  }

  /** `process_relationships` when the map yields its files in `order`. */
  function ProcessInOrder(s: ProcessorState, zip: ZipArchive, codec: Codec, d: XmlDeserializer, rootModelPath: string,
                          table: map<string, Rel.Relationships>, order: seq<string>): Result<ProcessorState, Error> {
    ProcessAll(s, zip, codec, d, rootModelPath, Flatten(table, order))
  }

  // ------------------------------------------------------------------ lemmas

  lemma LoadsPrefix(zip: ZipArchive, codec: Codec, d: XmlDeserializer, rels: seq<Rel.Relationship>, n: nat)
    requires n <= |rels|
    ensures Loads(zip, codec, d, rels)[..n] == Loads(zip, codec, d, rels[..n])
  {
  }

  lemma LoadsAppend(zip: ZipArchive, codec: Codec, d: XmlDeserializer, a: seq<Rel.Relationship>, b: seq<Rel.Relationship>)
    ensures Loads(zip, codec, d, a + b) == Loads(zip, codec, d, a) + Loads(zip, codec, d, b)
  {
  }

  /** Processing one more relationship is one more step. */
  lemma ProcessAllStep(s: ProcessorState, zip: ZipArchive, codec: Codec, d: XmlDeserializer, rootModelPath: string,
                       rels: seq<Rel.Relationship>, rel: Rel.Relationship)
    ensures ProcessAll(s, zip, codec, d, rootModelPath, rels + [rel]) ==
              if ProcessAll(s, zip, codec, d, rootModelPath, rels).Err? then ProcessAll(s, zip, codec, d, rootModelPath, rels)
              else ProcessOne(ProcessAll(s, zip, codec, d, rootModelPath, rels).value, zip, codec, d, rootModelPath, rel)
  {
    var ab := rels + [rel];
    assert ab[..|ab| - 1] == rels;
    LoadsPrefix(zip, codec, d, ab, |rels|);
  }

  lemma {:induction false} ApplyAllAppend(s: ProcessorState, a: seq<Rel.Relationship>, la: seq<Result<Loaded, Error>>,
                                          b: seq<Rel.Relationship>, lb: seq<Result<Loaded, Error>>, rootModelPath: string)
    requires |la| == |a| && |lb| == |b|
    ensures ApplyAll(s, a + b, la + lb, rootModelPath) ==
              if ApplyAll(s, a, la, rootModelPath).Err? then ApplyAll(s, a, la, rootModelPath)
              else ApplyAll(ApplyAll(s, a, la, rootModelPath).value, b, lb, rootModelPath)
  {
    if b == [] {
      assert a + b == a && la + lb == la;
    } else {
      var ab, lab := a + b, la + lb;
      assert ab[..|ab| - 1] == a + b[..|b| - 1];
      assert lab[..|ab| - 1] == la + lb[..|b| - 1];
      assert ab[|ab| - 1] == b[|b| - 1];
      assert lab[|ab| - 1] == lb[|b| - 1];
      ApplyAllAppend(s, a, la, b[..|b| - 1], lb[..|b| - 1], rootModelPath);
    }
  }

  /** Processing two runs: the second starts from the state the first left,
      unless the first already failed. */
  lemma ProcessAllAppend(s: ProcessorState, zip: ZipArchive, codec: Codec, d: XmlDeserializer, rootModelPath: string,
                         a: seq<Rel.Relationship>, b: seq<Rel.Relationship>)
    ensures ProcessAll(s, zip, codec, d, rootModelPath, a + b) ==
              if ProcessAll(s, zip, codec, d, rootModelPath, a).Err? then ProcessAll(s, zip, codec, d, rootModelPath, a)
              else ProcessAll(ProcessAll(s, zip, codec, d, rootModelPath, a).value, zip, codec, d, rootModelPath, b)
  {
    LoadsAppend(zip, codec, d, a, b);
    ApplyAllAppend(s, a, Loads(zip, codec, d, a), b, Loads(zip, codec, d, b), rootModelPath);
  }

  lemma {:induction false} FlattenAppend(table: map<string, Rel.Relationships>, a: seq<string>, b: seq<string>)
    ensures Flatten(table, a + b) == Flatten(table, a) + Flatten(table, b)
  {
    if b == [] {
      assert a + b == a;
    } else {
      var ab := a + b;
      assert ab[..|ab| - 1] == a + b[..|b| - 1];
      assert ab[|ab| - 1] == b[|b| - 1];
      FlattenAppend(table, a, b[..|b| - 1]);
    }
  }

  lemma {:induction false} ApplyAllOk(s: ProcessorState, rels: seq<Rel.Relationship>, loads: seq<Result<Loaded, Error>>, rootModelPath: string)
    requires |loads| == |rels|
    ensures ApplyAll(s, rels, loads, rootModelPath).Ok? <==> forall i :: 0 <= i < |loads| ==> loads[i].Ok?
  {
    if rels != [] {
      ApplyAllOk(s, rels[..|rels| - 1], loads[..|rels| - 1], rootModelPath);
    }
  }

  /** Processing succeeds exactly when every relationship's part can be
      loaded, whatever was read before it. */
  lemma ProcessAllOk(s: ProcessorState, zip: ZipArchive, codec: Codec, d: XmlDeserializer, rootModelPath: string,
                     rels: seq<Rel.Relationship>)
    ensures ProcessAll(s, zip, codec, d, rootModelPath, rels).Ok? <==>
              forall i :: 0 <= i < |rels| ==> Load(zip, codec, d, rels[i].target, rels[i].relationshipType).Ok?
  {
    ApplyAllOk(s, rels, Loads(zip, codec, d, rels), rootModelPath);
  }

  lemma {:induction false} ApplyAllFirstError(s: ProcessorState, rels: seq<Rel.Relationship>, loads: seq<Result<Loaded, Error>>, rootModelPath: string)
    requires |loads| == |rels|
    requires ApplyAll(s, rels, loads, rootModelPath).Err?
    ensures exists k :: 0 <= k < |loads| && loads[k].Err? && ApplyAll(s, rels, loads, rootModelPath).error == loads[k].error &&
                        forall j :: 0 <= j < k ==> loads[j].Ok?
  {
    var n := |rels| - 1;
    if ApplyAll(s, rels[..n], loads[..n], rootModelPath).Err? {
      ApplyAllFirstError(s, rels[..n], loads[..n], rootModelPath);
      var k :| 0 <= k < |loads[..n]| && loads[..n][k].Err? && ApplyAll(s, rels[..n], loads[..n], rootModelPath).error == loads[..n][k].error &&
               forall j :: 0 <= j < k ==> loads[..n][j].Ok?;
      assert loads[k] == loads[..n][k];
    } else {
      ApplyAllOk(s, rels[..n], loads[..n], rootModelPath);
      assert forall j :: 0 <= j < n ==> loads[..n][j] == loads[j];
    }
  }

  /** A failed run reports the error of the first relationship whose part
      cannot be loaded. */
  lemma ProcessAllFirstError(s: ProcessorState, zip: ZipArchive, codec: Codec, d: XmlDeserializer, rootModelPath: string,
                             rels: seq<Rel.Relationship>)
    requires ProcessAll(s, zip, codec, d, rootModelPath, rels).Err?
    ensures exists k :: 0 <= k < |rels| && Load(zip, codec, d, rels[k].target, rels[k].relationshipType).Err? &&
              ProcessAll(s, zip, codec, d, rootModelPath, rels).error == Load(zip, codec, d, rels[k].target, rels[k].relationshipType).error &&
              forall j :: 0 <= j < k ==> Load(zip, codec, d, rels[j].target, rels[j].relationshipType).Ok?
  {
    ApplyAllFirstError(s, rels, Loads(zip, codec, d, rels), rootModelPath);
  }

  /** What a successful run leaves: the keys a state gained. */
  ghost predicate RootAfter(s: ProcessorState, t: ProcessorState, rels: seq<Rel.Relationship>, rootModelPath: string) {
    t.root.Some? <==> (s.root.Some? ||
      exists i :: 0 <= i < |rels| && rels[i].relationshipType == Rel.Model && rels[i].target == rootModelPath)
  }

  ghost predicate SubModelsAfter(s: ProcessorState, t: ProcessorState, rels: seq<Rel.Relationship>, rootModelPath: string) {
    forall k :: k in t.subModels <==> (k in s.subModels ||
      exists i :: 0 <= i < |rels| && rels[i].relationshipType == Rel.Model && rels[i].target == k && k != rootModelPath)
  }

  ghost predicate ThumbnailsAfter(s: ProcessorState, t: ProcessorState, rels: seq<Rel.Relationship>) {
    forall k :: k in t.thumbnails <==> (k in s.thumbnails ||
      exists i :: 0 <= i < |rels| && rels[i].relationshipType == Rel.Thumbnail && rels[i].target == k)
  }

  ghost predicate UnknownPartsAfter(s: ProcessorState, t: ProcessorState, rels: seq<Rel.Relationship>) {
    forall k :: k in t.unknownParts <==> (k in s.unknownParts ||
      exists i :: 0 <= i < |rels| && rels[i].relationshipType.Unknown? && rels[i].target == k)
  }

  ghost predicate KeysAfter(s: ProcessorState, t: ProcessorState, rels: seq<Rel.Relationship>, rootModelPath: string) {
    && RootAfter(s, t, rels, rootModelPath)
    && SubModelsAfter(s, t, rels, rootModelPath)
    && ThumbnailsAfter(s, t, rels)
    && UnknownPartsAfter(s, t, rels)
    && t.relationships == s.relationships && t.contentTypes == s.contentTypes
  }

  /** The loads match their relationships' kinds. */
  ghost predicate KindsMatch(rels: seq<Rel.Relationship>, loads: seq<Result<Loaded, Error>>)
    requires |loads| == |rels|
  {
    forall i :: 0 <= i < |rels| && loads[i].Ok? ==>
      (loads[i].value.LoadedModel? <==> rels[i].relationshipType == Rel.Model) &&
      (loads[i].value.LoadedImage? <==> rels[i].relationshipType == Rel.Thumbnail)
  }

  lemma {:induction false} ApplyAllKeys(s: ProcessorState, rels: seq<Rel.Relationship>, loads: seq<Result<Loaded, Error>>, rootModelPath: string)
    requires |loads| == |rels| && KindsMatch(rels, loads)
    requires ApplyAll(s, rels, loads, rootModelPath).Ok?
    ensures KeysAfter(s, ApplyAll(s, rels, loads, rootModelPath).value, rels, rootModelPath)
  {
    if rels != [] {
      var n := |rels| - 1;
      var init := rels[..n];
      assert KindsMatch(init, loads[..n]) by {
        assert forall i :: 0 <= i < n ==> init[i] == rels[i] && loads[..n][i] == loads[i];
      }
      ApplyAllKeys(s, init, loads[..n], rootModelPath);
      var t := ApplyAll(s, init, loads[..n], rootModelPath).value;
      var last := rels[n];
      var u := Apply(t, last, loads[n].value, rootModelPath);
      assert ApplyAll(s, rels, loads, rootModelPath).value == u;
      assert forall i :: 0 <= i < n ==> init[i] == rels[i];
      KeysStep(s, t, u, init, last, loads[n].value, rootModelPath);
      assert init + [last] == rels;
    }
  }

  lemma KeysStep(s: ProcessorState, t: ProcessorState, u: ProcessorState, init: seq<Rel.Relationship>, last: Rel.Relationship,
                 loaded: Loaded, rootModelPath: string)
    requires KeysAfter(s, t, init, rootModelPath)
    requires loaded.LoadedModel? <==> last.relationshipType == Rel.Model
    requires loaded.LoadedImage? <==> last.relationshipType == Rel.Thumbnail
    requires u == Apply(t, last, loaded, rootModelPath)
    ensures KeysAfter(s, u, init + [last], rootModelPath)
  {
    var rels := init + [last];
    assert forall i :: 0 <= i < |init| ==> rels[i] == init[i];
    assert rels[|init|] == last;
    assert RootAfter(s, u, rels, rootModelPath);
    assert SubModelsAfter(s, u, rels, rootModelPath);
    assert ThumbnailsAfter(s, u, rels);
    assert UnknownPartsAfter(s, u, rels);
  }

  lemma LoadKind(zip: ZipArchive, codec: Codec, d: XmlDeserializer, rels: seq<Rel.Relationship>)
    ensures KindsMatch(rels, Loads(zip, codec, d, rels))
  {
  }

  /** After a successful run the root is set exactly when it was before or
      some Model relationship targets the root model path, and each map holds
      exactly its old keys plus the targets of the relationships of its kind
      (sub-models: the Model targets other than the root model path). */
  lemma ProcessAllKeys(s: ProcessorState, zip: ZipArchive, codec: Codec, d: XmlDeserializer, rootModelPath: string,
                       rels: seq<Rel.Relationship>)
    requires ProcessAll(s, zip, codec, d, rootModelPath, rels).Ok?
    ensures KeysAfter(s, ProcessAll(s, zip, codec, d, rootModelPath, rels).value, rels, rootModelPath)
  {
    LoadKind(zip, codec, d, rels);
    ApplyAllKeys(s, rels, Loads(zip, codec, d, rels), rootModelPath);
  }

  /** What the processor holds is what the archive holds: the root is the
      model decoded from the root model path, and every sub-model, thumbnail
      and unknown part is what its key's part decodes to. */
  ghost predicate Faithful(s: ProcessorState, zip: ZipArchive, codec: Codec, d: XmlDeserializer, rootModelPath: string) {
    && (s.root.Some? ==> Load(zip, codec, d, rootModelPath, Rel.Model) == Ok(LoadedModel(s.root.value)))
    && (forall k :: k in s.subModels ==> Load(zip, codec, d, k, Rel.Model) == Ok(LoadedModel(s.subModels[k])))
    && (forall k :: k in s.thumbnails ==> Load(zip, codec, d, k, Rel.Thumbnail) == Ok(LoadedImage(s.thumbnails[k])))
    && (forall k :: k in s.unknownParts ==> exists u :: Load(zip, codec, d, k, Rel.Unknown(u)) == Ok(LoadedBytes(s.unknownParts[k])))
  }

  lemma InitialFaithful(contentTypes: CT.ContentTypes, zip: ZipArchive, codec: Codec, d: XmlDeserializer, rootModelPath: string)
    ensures Faithful(Initial(contentTypes), zip, codec, d, rootModelPath)
  {
  }

  /** Filing a model that the archive yields under its target keeps the processor faithful. */
  lemma StoreModelFaithful(s: ProcessorState, zip: ZipArchive, codec: Codec, d: XmlDeserializer, rootModelPath: string,
                           target: string, m: CoreTypes.Model)
    requires Faithful(s, zip, codec, d, rootModelPath)
    requires Load(zip, codec, d, target, Rel.Model) == Ok(LoadedModel(m))
    ensures Faithful(StoreModel(s, target, m, target == rootModelPath), zip, codec, d, rootModelPath)
  {
  }

  /** Filing an image that the archive yields under its target keeps the processor faithful. */
  lemma StoreThumbnailFaithful(s: ProcessorState, zip: ZipArchive, codec: Codec, d: XmlDeserializer, rootModelPath: string,
                               target: string, image: CoreTypes.Image)
    requires Faithful(s, zip, codec, d, rootModelPath)
    requires Load(zip, codec, d, target, Rel.Thumbnail) == Ok(LoadedImage(image))
    ensures Faithful(StoreThumbnail(s, target, image), zip, codec, d, rootModelPath)
  {
  }

  /** Filing the bytes that the archive yields under its target keeps the processor faithful. */
  lemma StoreUnknownFaithful(s: ProcessorState, zip: ZipArchive, codec: Codec, d: XmlDeserializer, rootModelPath: string,
                             target: string, ct: string, data: seq<Byte>)
    requires Faithful(s, zip, codec, d, rootModelPath)
    requires Load(zip, codec, d, target, Rel.Unknown(ct)) == Ok(LoadedBytes(data))
    ensures Faithful(StoreUnknown(s, target, data), zip, codec, d, rootModelPath)
  {
    var u := StoreUnknown(s, target, data);
    forall k | k in u.unknownParts
      ensures exists w :: Load(zip, codec, d, k, Rel.Unknown(w)) == Ok(LoadedBytes(u.unknownParts[k]))
    {
      if k == target {
        assert Load(zip, codec, d, k, Rel.Unknown(ct)) == Ok(LoadedBytes(u.unknownParts[k]));
      }
    }
  }

  /** One step keeps the processor faithful to the archive. */
  lemma ProcessOneFaithful(s: ProcessorState, zip: ZipArchive, codec: Codec, d: XmlDeserializer, rootModelPath: string, rel: Rel.Relationship)
    requires Faithful(s, zip, codec, d, rootModelPath)
    requires ProcessOne(s, zip, codec, d, rootModelPath, rel).Ok?
    ensures Faithful(ProcessOne(s, zip, codec, d, rootModelPath, rel).value, zip, codec, d, rootModelPath)
  {
    var loaded := Load(zip, codec, d, rel.target, rel.relationshipType);
    assert ProcessOne(s, zip, codec, d, rootModelPath, rel) == Ok(Apply(s, rel, loaded.value, rootModelPath));
    match rel.relationshipType
    case Unknown(ct) =>
      assert loaded.value.LoadedBytes? by { LoadFacts(zip, codec, d, rel.target, rel.relationshipType); }
      StoreUnknownFaithful(s, zip, codec, d, rootModelPath, rel.target, ct, loaded.value.bytes);
    case Model =>
      assert loaded.value.LoadedModel? by { LoadFacts(zip, codec, d, rel.target, rel.relationshipType); }
      StoreModelFaithful(s, zip, codec, d, rootModelPath, rel.target, loaded.value.model);
    case Thumbnail =>
      assert loaded.value.LoadedImage? by { LoadFacts(zip, codec, d, rel.target, rel.relationshipType); }
      StoreThumbnailFaithful(s, zip, codec, d, rootModelPath, rel.target, loaded.value.image);
  }

  /** Processing keeps the processor faithful to the archive. */
  lemma {:induction false} ProcessAllFaithful(s: ProcessorState, zip: ZipArchive, codec: Codec, d: XmlDeserializer, rootModelPath: string,
                                              rels: seq<Rel.Relationship>)
    requires Faithful(s, zip, codec, d, rootModelPath)
    requires ProcessAll(s, zip, codec, d, rootModelPath, rels).Ok?
    ensures Faithful(ProcessAll(s, zip, codec, d, rootModelPath, rels).value, zip, codec, d, rootModelPath)
  {
    if rels != [] {
      var init := rels[..|rels| - 1];
      var last := rels[|rels| - 1];
      ProcessAllStep(s, zip, codec, d, rootModelPath, init, last);
      assert init + [last] == rels;
      ProcessAllFaithful(s, zip, codec, d, rootModelPath, init);
      ProcessOneFaithful(ProcessAll(s, zip, codec, d, rootModelPath, init).value, zip, codec, d, rootModelPath, last);
    }
  }

  // ------------------------------------------------------------------ methods

  /** The body of the inner loop of `process_relationships` for one relationship. */
  method ProcessRelationship(zip: ZipArchive, rel: Rel.Relationship, processor: ThreemfPackageProcessor, codec: Codec,
                             d: XmlDeserializer, rootModelPath: string) returns (r: Result<(), Error>)
    modifies processor
    ensures var expected := ProcessOne(old(processor.State()), zip, codec, d, rootModelPath, rel);
            (r.Ok? <==> expected.Ok?) &&
            (r.Err? ==> r.error == expected.error) &&
            (r.Ok? ==> processor.State() == expected.value)
  {
    var name := Utils.TryStripLeadingSlash(rel.target);
    var zipFile := ByName(zip, name);
    match zipFile {
      case Err(err) =>
        return Err(Zip(err));
      case Ok(file) =>
        if file.Dir? {
          return Err(ReadError(FolderMessage(name)));
        }
        match rel.relationshipType {
          case Thumbnail =>
            var bytes := Contents(file);
            r := processor.ProcessThumbnail(rel.target, bytes, codec);
          case Model =>
            var isRoot := rel.target == rootModelPath;
            r := processor.ProcessModel(rel.target, file, codec, d, isRoot);
          case Unknown(contentType) =>
            var bytes := Contents(file);
            r := processor.ProcessUnknown(rel.target, contentType, bytes);
        }
    }
  }

  /** The relationships of one file, in the file's order; the first error stops. */
  method ProcessRelationshipsFile(zip: ZipArchive, rels: Rel.Relationships, processor: ThreemfPackageProcessor, codec: Codec,
                                  d: XmlDeserializer, rootModelPath: string) returns (r: Result<(), Error>)
    modifies processor
    ensures var expected := ProcessAll(old(processor.State()), zip, codec, d, rootModelPath, rels.relationships);
            (r.Ok? <==> expected.Ok?) &&
            (r.Err? ==> r.error == expected.error) &&
            (r.Ok? ==> processor.State() == expected.value)
  {
    ghost var s0 := processor.State();
    var i := 0;
    while i < |rels.relationships|
      invariant 0 <= i <= |rels.relationships|
      invariant ProcessAll(s0, zip, codec, d, rootModelPath, rels.relationships[..i]) == Ok(processor.State())
    {
      ghost var before := processor.State();
      var step := ProcessRelationship(zip, rels.relationships[i], processor, codec, d, rootModelPath);
      assert ProcessAll(s0, zip, codec, d, rootModelPath, rels.relationships[..i + 1]) ==
               ProcessOne(before, zip, codec, d, rootModelPath, rels.relationships[i]) by {
        assert rels.relationships[..i + 1] == rels.relationships[..i] + [rels.relationships[i]];
        ProcessAllStep(s0, zip, codec, d, rootModelPath, rels.relationships[..i], rels.relationships[i]);
      }
      if step.Err? {
        assert ProcessAll(s0, zip, codec, d, rootModelPath, rels.relationships) ==
                 ProcessAll(s0, zip, codec, d, rootModelPath, rels.relationships[..i + 1]) by {
          ProcessAllAppend(s0, zip, codec, d, rootModelPath, rels.relationships[..i + 1], rels.relationships[i + 1..]);
          assert rels.relationships[..i + 1] + rels.relationships[i + 1..] == rels.relationships;
        }
        return Err(step.error);
      }
      i := i + 1;
    }
    assert rels.relationships[..i] == rels.relationships;
    r := Ok(());
  }

  /** `process_relationships`: every relationship of every relationships file,
      the files in the map's iteration order (reported as the ghost `order`). */
  method ProcessRelationships(zip: ZipArchive, relationships: map<string, Rel.Relationships>, processor: ThreemfPackageProcessor,
                              codec: Codec, d: XmlDeserializer, rootModelPath: string)
    returns (r: Result<(), Error>, ghost order: seq<string>)
    modifies processor
    ensures IsEnumeration(order, relationships.Keys)
    ensures var expected := ProcessInOrder(old(processor.State()), zip, codec, d, rootModelPath, relationships, order);
            (r.Ok? <==> expected.Ok?) &&
            (r.Err? ==> r.error == expected.error) &&
            (r.Ok? ==> processor.State() == expected.value)
  {
    ghost var s0 := processor.State();
    var remaining := relationships.Keys;
    ghost var visited: seq<string> := [];
    while remaining != {}
      invariant remaining <= relationships.Keys
      invariant IsEnumeration(visited, relationships.Keys - remaining)
      invariant ProcessAll(s0, zip, codec, d, rootModelPath, Flatten(relationships, visited)) == Ok(processor.State())
      decreases |remaining|
    {
      var path :| path in remaining;
      ghost var before := Flatten(relationships, visited);
      ghost var here := relationships[path].relationships;
      assert Flatten(relationships, visited + [path]) == before + here by {
        assert (visited + [path])[..|visited|] == visited;
      }
      ghost var mid := processor.State();
      var step := ProcessRelationshipsFile(zip, relationships[path], processor, codec, d, rootModelPath);
      assert ProcessAll(s0, zip, codec, d, rootModelPath, before + here) == ProcessAll(mid, zip, codec, d, rootModelPath, here) by {
        ProcessAllAppend(s0, zip, codec, d, rootModelPath, before, here);
      }
      if step.Err? {
        ghost var rest := SomeEnumeration(remaining - {path});
        assert IsEnumeration(visited + [path] + rest, relationships.Keys) by {
          EnumerationJoin(visited + [path], rest, relationships.Keys - (remaining - {path}), relationships.Keys);
        }
        assert ProcessInOrder(s0, zip, codec, d, rootModelPath, relationships, visited + [path] + rest) ==
                 ProcessAll(s0, zip, codec, d, rootModelPath, before + here) by {
          FlattenAppend(relationships, visited + [path], rest);
          ProcessAllAppend(s0, zip, codec, d, rootModelPath, before + here, Flatten(relationships, rest));
        }
        return Err(step.error), visited + [path] + rest;
      }
      visited := visited + [path];
      remaining := remaining - {path};
    }
    order := visited;
    r := Ok(());
  }
}
