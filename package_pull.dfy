/** The pull-based package (`ThreemfPackagePull`): the content types and every
    relationships file are read when the package is opened; models, thumbnails
    and other parts are read from the archive when first asked for and then
    kept in a cache keyed by their path. A part is served only when a
    relationship of the right type targets its path. */
module PackagePull {
  import opened Wrappers
  import opened Collections
  import opened Zip
  import opened IoError
  import opened Codecs
  import CT = ContentTypes
  import Rel = Relationships
  import CoreTypes
  import Utils
  import ZipUtils
  import PackageReader

  /** Whether loaded parts are kept; `NoCache` is the default. */
  datatype CachePolicy = CacheAll | NoCache

  function DefaultCachePolicy(): CachePolicy {
    NoCache
  }

  /** The three kinds of part the package hands out. */
  datatype PartKind = ModelPart | ThumbnailPart | UnknownPart

  predicate OfKind(t: Rel.RelationshipType, kind: PartKind) {
    match kind
    case ModelPart => t.Model?
    case ThumbnailPart => t.Thumbnail?
    case UnknownPart => t.Unknown?
  }

  /** Some relationship of some relationships file targets `path` with a
      relationship of the given kind. */
  predicate Targeted(table: map<string, Rel.Relationships>, path: string, kind: PartKind) {
    exists k :: k in table && TargetedIn(table[k], path, kind)
  }

  /** Some relationship of one relationships file targets `path` with the given kind. */
  predicate TargetedIn(rels: Rel.Relationships, path: string, kind: PartKind) {
    exists i :: 0 <= i < |rels.relationships| &&
                rels.relationships[i].target == path && OfKind(rels.relationships[i].relationshipType, kind)
  }

  /** The targets of the relationships of the given kind, in order. */
  function Targets(rels: seq<Rel.Relationship>, kind: PartKind): seq<string> {
    if rels == [] then []
    else
      var last := rels[|rels| - 1];
      Targets(rels[..|rels| - 1], kind) + (if OfKind(last.relationshipType, kind) then [last.target] else [])
  }

  /** `model_paths`, `thumbnail_paths` and `unknown_part_paths` when the
      relationships map yields its files in `order`. */
  function Paths(table: map<string, Rel.Relationships>, order: seq<string>, kind: PartKind): seq<string> {
    Targets(ZipUtils.Flatten(table, order), kind)
  }

  // --------------------------------------------------------------- loading

  /** `load_model_from_archive`: the entry under the path without its leading
      "/", decoded as a model. Unlike the eager reader it does not refuse a
      directory entry. */
  function LoadModel(zip: ZipArchive, codec: Codec, d: XmlDeserializer, path: string): (r: Result<CoreTypes.Model, Error>)
    ensures ByName(zip, Utils.TryStripLeadingSlash(path)).Err? ==> r == Err(Zip(FileNotFound))
    ensures ByName(zip, Utils.TryStripLeadingSlash(path)).Ok? ==>
              r == DeserializeModel(codec, d, ByName(zip, Utils.TryStripLeadingSlash(path)).value)
  {
    match ByName(zip, Utils.TryStripLeadingSlash(path))
    case Err(err) => Err(Zip(err))
    case Ok(file) => DeserializeModel(codec, d, file)
  }

  /** `load_thumbnail_from_archive`: the entry's bytes decoded as an image. */
  function LoadThumbnail(zip: ZipArchive, codec: Codec, path: string): (r: Result<CoreTypes.Image, Error>)
    ensures ByName(zip, Utils.TryStripLeadingSlash(path)).Err? ==> r == Err(Zip(FileNotFound))
    ensures ByName(zip, Utils.TryStripLeadingSlash(path)).Ok? ==>
              r == codec.image(Contents(ByName(zip, Utils.TryStripLeadingSlash(path)).value))
  {
    match ByName(zip, Utils.TryStripLeadingSlash(path))
    case Err(err) => Err(Zip(err))
    case Ok(file) => codec.image(Contents(file))
  }

  /** `load_unknown_part_from_archive`: the entry's bytes as they are. */
  function LoadUnknownPart(zip: ZipArchive, path: string): (r: Result<seq<Byte>, Error>)
    ensures r.Ok? <==> ByName(zip, Utils.TryStripLeadingSlash(path)).Ok?
    ensures r.Ok? ==> r.value == Contents(ByName(zip, Utils.TryStripLeadingSlash(path)).value)
    ensures r.Err? ==> r.error == Zip(FileNotFound)
  {
    match ByName(zip, Utils.TryStripLeadingSlash(path))
    case Err(err) => Err(Zip(err))
    case Ok(file) => Ok(Contents(file))
  }

  // ---------------------------------------------------------------- caching

  /** The outcome of one cached access: what the caller receives, and the cache afterwards. */
  datatype Access<V> = Access(result: Result<Option<V>, Error>, cache: map<string, V>)

  /** One access through a cache: nothing when the access is not allowed
      (`allowed` false), the cached value when there is one, and otherwise the
      freshly loaded value, which is then cached; a failed load is passed on
      and caches nothing. */
  function CachedAccess<V>(cache: map<string, V>, path: string, allowed: bool, load: Result<V, Error>): (a: Access<V>)
    ensures !allowed ==> a == Access(Ok(None), cache)
    ensures allowed && path in cache ==> a == Access(Ok(Some(cache[path])), cache)
    ensures a.result.Err? ==> a.cache == cache && load == Err(a.result.error)
    ensures a.result.Ok? && allowed ==> path in a.cache && a.result.value == Some(a.cache[path])
    ensures forall p :: p in cache ==> p in a.cache && a.cache[p] == cache[p]
    ensures forall p :: p in a.cache && p !in cache ==> p == path && load == Ok(a.cache[p])
  {
    if !allowed then Access(Ok(None), cache)
    else if path in cache then Access(Ok(Some(cache[path])), cache)
    else
      match load
      case Err(e) => Access(Err(e), cache)
      case Ok(v) => Access(Ok(Some(v)), cache[path := v])
  }

  /** What an access would give with no cache at all. */
  function Uncached<V>(allowed: bool, load: Result<V, Error>): Result<Option<V>, Error> {
    if !allowed then Ok(None)
    else
      match load
      case Err(e) => Err(e)
      case Ok(v) => Ok(Some(v))
  }

  /** Every cached value is what loading its path gives. */
  ghost predicate CacheHolds<V>(cache: map<string, V>, load: string -> Result<V, Error>) {
    forall p :: p in cache ==> load(p) == Ok(cache[p])
  }

  /** The caller's function applied to the part handed out. */
  function Give<V, T>(res: Result<Option<V>, Error>, f: V -> T): Result<Option<T>, Error> {
    match res
    case Err(e) => Err(e)
    case Ok(None) => Ok(None)
    case Ok(Some(v)) => Ok(Some(f(v)))
  }

  // ----------------------------------------------------------------- lemmas

  lemma {:induction false} TargetsAppend(a: seq<Rel.Relationship>, b: seq<Rel.Relationship>, kind: PartKind)
    ensures Targets(a + b, kind) == Targets(a, kind) + Targets(b, kind)
  {
    if b == [] {
      assert a + b == a;
    } else {
      var ab := a + b;
      assert ab[..|ab| - 1] == a + b[..|b| - 1];
      assert ab[|ab| - 1] == b[|b| - 1];
      TargetsAppend(a, b[..|b| - 1], kind);
    }
  }

  /** A path is listed exactly when some relationship of the kind targets it. */
  lemma {:induction false} TargetsMembers(rels: seq<Rel.Relationship>, kind: PartKind, p: string)
    ensures p in Targets(rels, kind) <==>
            exists i :: 0 <= i < |rels| && rels[i].target == p && OfKind(rels[i].relationshipType, kind)
  {
    if rels != [] {
      var init := rels[..|rels| - 1];
      TargetsMembers(init, kind, p);
      assert forall i :: 0 <= i < |init| ==> init[i] == rels[i];
    }
  }

  /** Trailing relationships files add their own targets. */
  lemma {:induction false} PathsInOrder(table: map<string, Rel.Relationships>, order: seq<string>, kind: PartKind, p: string)
    ensures p in Paths(table, order, kind) <==>
            exists k :: k in order && k in table && p in Targets(table[k].relationships, kind)
  {
    if order != [] {
      var init := order[..|order| - 1];
      var last := order[|order| - 1];
      var tail := if last in table then table[last].relationships else [];
      TargetsAppend(ZipUtils.Flatten(table, init), tail, kind);
      PathsInOrder(table, init, kind, p);
      assert order == init + [last];
      if p in Paths(table, order, kind) && p !in Paths(table, init, kind) {
        assert p in Targets(tail, kind);
        assert tail != [];
      }
    }
  }

  /** `model_paths`, `thumbnail_paths` and `unknown_part_paths` each list
      exactly the targets of the relationships of their kind. */
  lemma PathsMembers(table: map<string, Rel.Relationships>, order: seq<string>, kind: PartKind, p: string)
    requires IsEnumeration(order, table.Keys)
    ensures p in Paths(table, order, kind) <==> Targeted(table, p, kind)
  {
    PathsInOrder(table, order, kind, p);
    if Targeted(table, p, kind) {
      var k, i :| k in table && 0 <= i < |table[k].relationships| &&
                  table[k].relationships[i].target == p && OfKind(table[k].relationships[i].relationshipType, kind);
      TargetsMembers(table[k].relationships, kind, p);
      assert k in order;
    }
    if p in Paths(table, order, kind) {
      var k :| k in order && k in table && p in Targets(table[k].relationships, kind);
      TargetsMembers(table[k].relationships, kind, p);
    }
  }

  /** The cache is invisible to callers: while every cached value is what
      loading its path gives, an access returns what an uncached read would,
      and the cache keeps that property. */
  lemma CacheTransparent<V>(cache: map<string, V>, load: string -> Result<V, Error>, path: string, allowed: bool)
    requires CacheHolds(cache, load)
    ensures CachedAccess(cache, path, allowed, load(path)).result == Uncached(allowed, load(path))
    ensures CacheHolds(CachedAccess(cache, path, allowed, load(path)).cache, load)
  {
  }

  /** Once an access has succeeded, repeating it is answered from the cache:
      the same result, no change, whatever a new load would give. */
  lemma CacheRepeat<V>(cache: map<string, V>, path: string, allowed: bool, load: Result<V, Error>, again: Result<V, Error>)
    requires CachedAccess(cache, path, allowed, load).result.Ok?
    ensures var a := CachedAccess(cache, path, allowed, load);
            CachedAccess(a.cache, path, allowed, again) == a
  {
  }

  /** Opening the pull package reads the same header and relationships table
      as the eager reader with sub-model processing switched on: the root model
      path is the first Model target of the root relationships file, and the
      table holds that file and exactly the discovered relationships files. */
  lemma OpenFacts(zip: ZipArchive, codec: Codec, d: XmlDeserializer)
    requires PackageReader.OpenRelationships(zip, true, codec, d).Ok?
    ensures var o := PackageReader.OpenRelationships(zip, true, codec, d).value;
            ZipUtils.FirstModelTarget(o.header.rootRels) == Some(o.header.rootModelPath) &&
            o.header.rootRelsFilename in o.table && o.table[o.header.rootRelsFilename] == o.header.rootRels &&
            o.table.Keys == {o.header.rootRelsFilename} + set p | p in PackageReader.Discovered(zip, o.header)
  {
    var h := PackageReader.OpenHeader(zip, codec, d).value;
    PackageReader.HeaderFacts(zip, codec, d);
    PackageReader.OpenedTable(zip, true, codec, d, h);
  }

  // ------------------------------------------------------------------ class

  class ThreemfPackagePull {
    const zip: ZipArchive
    const codec: Codec
    const deserializer: XmlDeserializer
    const cachePolicy: CachePolicy
    const contentTypes: CT.ContentTypes
    const relationships: map<string, Rel.Relationships>
    const rootModelPath: string
    var rootModel: Option<CoreTypes.Model>
    var subModels: map<string, CoreTypes.Model>
    var thumbnails: map<string, CoreTypes.Image>
    var unknownParts: map<string, seq<Byte>>

    /** Everything cached is what the archive holds under its path. */
    ghost predicate Valid()
      reads this
    {
      (rootModel.Some? ==> LoadModel(zip, codec, deserializer, rootModelPath) == Ok(rootModel.value)) &&
      CacheHolds(subModels, p => LoadModel(zip, codec, deserializer, p)) &&
      CacheHolds(thumbnails, p => LoadThumbnail(zip, codec, p)) &&
      CacheHolds(unknownParts, p => LoadUnknownPart(zip, p))
    }

    /** Whether `with_sub_model` hands out the model at `path`: not the root
        model, and the target of some Model relationship. */
    predicate IsSubModelPath(path: string) {
      path != rootModelPath && Targeted(relationships, path, ModelPart)
    }

    constructor (zip: ZipArchive, codec: Codec, deserializer: XmlDeserializer, cachePolicy: CachePolicy,
                 contentTypes: CT.ContentTypes, relationships: map<string, Rel.Relationships>, rootModelPath: string)
      ensures this.zip == zip && this.codec == codec && this.deserializer == deserializer
      ensures this.cachePolicy == cachePolicy && this.contentTypes == contentTypes
      ensures this.relationships == relationships && this.rootModelPath == rootModelPath
      ensures rootModel == None && subModels == map[] && thumbnails == map[] && unknownParts == map[]
      ensures Valid()
    {
      this.zip := zip;
      this.codec := codec;
      this.deserializer := deserializer;
      this.cachePolicy := cachePolicy;
      this.contentTypes := contentTypes;
      this.relationships := relationships;
      this.rootModelPath := rootModelPath;
      rootModel := None;
      subModels := map[];
      thumbnails := map[];
      unknownParts := map[];
    }

    /** `from_reader`: the content types, the root relationships file, the
        root model path and every other relationships file are read; a
        failure of any of them is the result. Nothing else is read yet. */
    static method FromReader(zip: ZipArchive, codec: Codec, deserializer: XmlDeserializer, cachePolicy: CachePolicy)
      returns (r: Result<ThreemfPackagePull, Error>)
      ensures var o := PackageReader.OpenRelationships(zip, true, codec, deserializer);
              (r.Ok? <==> o.Ok?) && (r.Err? ==> r.error == o.error)
      ensures r.Ok? ==>
                var o := PackageReader.OpenRelationships(zip, true, codec, deserializer).value;
                fresh(r.value) && r.value.Valid() &&
                r.value.zip == zip && r.value.codec == codec && r.value.deserializer == deserializer &&
                r.value.cachePolicy == cachePolicy && r.value.contentTypes == o.header.contentTypes &&
                r.value.relationships == o.table && r.value.rootModelPath == o.header.rootModelPath &&
                r.value.rootModel == None && r.value.subModels == map[] &&
                r.value.thumbnails == map[] && r.value.unknownParts == map[]
    {
      var opening := PackageReader.Open(zip, true, codec, deserializer);
      if opening.Err? {
        return Err(opening.error);
      }
      var h := opening.value.header;
      var package := new ThreemfPackagePull(zip, codec, deserializer, cachePolicy, h.contentTypes,
                                            opening.value.table, h.rootModelPath);
      r := Ok(package);
    }

    /** `root_model`: decoded on first success and kept from then on, so the
        result is always what the archive holds under the root model path. */
    method RootModel() returns (r: Result<CoreTypes.Model, Error>)
      requires Valid()
      modifies this
      ensures Valid()
      ensures r == LoadModel(zip, codec, deserializer, rootModelPath)
      ensures old(rootModel).Some? ==> rootModel == old(rootModel)
      ensures old(rootModel).None? ==> rootModel == (if r.Ok? then Some(r.value) else None)
      ensures subModels == old(subModels) && thumbnails == old(thumbnails) && unknownParts == old(unknownParts)
    {
      if rootModel.Some? {
        return Ok(rootModel.value);
      }
      r := LoadModel(zip, codec, deserializer, rootModelPath);
      if r.Ok? {
        rootModel := Some(r.value);
      }
    }

    /** `with_sub_model`: nothing for the root model path or a path no Model
        relationship targets; otherwise the cached model, or the model loaded
        now and cached. Both cache policies run the same code. */
    method WithSubModel<T>(path: string, f: CoreTypes.Model -> T) returns (r: Result<Option<T>, Error>)
      requires Valid()
      modifies this
      ensures Valid()
      ensures var a := CachedAccess(old(subModels), path, IsSubModelPath(path), LoadModel(zip, codec, deserializer, path));
              subModels == a.cache && r == Give(a.result, f)
      ensures r == Give(Uncached(IsSubModelPath(path), LoadModel(zip, codec, deserializer, path)), f)
      ensures rootModel == old(rootModel) && thumbnails == old(thumbnails) && unknownParts == old(unknownParts)
    {
      if path == rootModelPath {
        return Ok(None);
      }
      var isModel := Targeted(relationships, path, ModelPart);
      if !isModel {
        return Ok(None);
      }
      if path in subModels {
        return Ok(Some(f(subModels[path])));
      }
      var model := LoadModel(zip, codec, deserializer, path);
      if model.Err? {
        return Err(model.error);
      }
      subModels := subModels[path := model.value];
      r := Ok(Some(f(model.value)));
    }

    /** `with_thumbnail`: nothing unless a Thumbnail relationship targets the
        path; otherwise the cached image, or the image decoded now and cached. */
    method WithThumbnail<T>(path: string, f: CoreTypes.Image -> T) returns (r: Result<Option<T>, Error>)
      requires Valid()
      modifies this
      ensures Valid()
      ensures var a := CachedAccess(old(thumbnails), path, Targeted(relationships, path, ThumbnailPart), LoadThumbnail(zip, codec, path));
              thumbnails == a.cache && r == Give(a.result, f)
      ensures r == Give(Uncached(Targeted(relationships, path, ThumbnailPart), LoadThumbnail(zip, codec, path)), f)
      ensures rootModel == old(rootModel) && subModels == old(subModels) && unknownParts == old(unknownParts)
    {
      var isThumbnail := Targeted(relationships, path, ThumbnailPart);
      if !isThumbnail {
        return Ok(None);
      }
      if path in thumbnails {
        return Ok(Some(f(thumbnails[path])));
      }
      var image := LoadThumbnail(zip, codec, path);
      if image.Err? {
        return Err(image.error);
      }
      thumbnails := thumbnails[path := image.value];
      r := Ok(Some(f(image.value)));
    }

    /** `with_unknown_part`: nothing unless an Unknown relationship targets
        the path; otherwise the cached bytes, or the bytes read now and cached. */
    method WithUnknownPart<T>(path: string, f: seq<Byte> -> T) returns (r: Result<Option<T>, Error>)
      requires Valid()
      modifies this
      ensures Valid()
      ensures var a := CachedAccess(old(unknownParts), path, Targeted(relationships, path, UnknownPart), LoadUnknownPart(zip, path));
              unknownParts == a.cache && r == Give(a.result, f)
      ensures r == Give(Uncached(Targeted(relationships, path, UnknownPart), LoadUnknownPart(zip, path)), f)
      ensures rootModel == old(rootModel) && subModels == old(subModels) && thumbnails == old(thumbnails)
    {
      var isUnknown := Targeted(relationships, path, UnknownPart);
      if !isUnknown {
        return Ok(None);
      }
      if path in unknownParts {
        return Ok(Some(f(unknownParts[path])));
      }
      var bytes := LoadUnknownPart(zip, path);
      if bytes.Err? {
        return Err(bytes.error);
      }
      unknownParts := unknownParts[path := bytes.value];
      r := Ok(Some(f(bytes.value)));
    }

    /** The text of the entry `name`, read afresh from the archive. */
    function EntryText(name: string): Result<string, Error> {
      match ByName(zip, name)
      case Err(err) => Err(Zip(err))
      case Ok(file) => ReadToString(codec, file)
    }

    /** `with_model_xml`: the caller's function of the raw text of a model
        part; a path no Model relationship targets is refused as not found. */
    function WithModelXml<T>(path: string, f: string -> T): (r: Result<T, Error>)
      ensures r == Err(ResourceNotFound("Model at path: " + path)) <==> !Targeted(relationships, path, ModelPart)
      ensures var name := Utils.TryStripLeadingSlash(path);
              r.Ok? <==> Targeted(relationships, path, ModelPart) && ByName(zip, name).Ok? &&
                         codec.utf8(Contents(ByName(zip, name).value)).Some?
      ensures r.Ok? ==> r.value == f(codec.utf8(Contents(ByName(zip, Utils.TryStripLeadingSlash(path)).value)).value)
    {
      if !Targeted(relationships, path, ModelPart) then Err(ResourceNotFound("Model at path: " + path))
      else
        var text :- EntryText(Utils.TryStripLeadingSlash(path));
        Ok(f(text))
    }

    /** `with_relationships_xml`: the caller's function of the raw text of a
        relationships file; a path that is not a key of the relationships
        table is refused as not found. */
    function WithRelationshipsXml<T>(path: string, f: string -> T): (r: Result<T, Error>)
      ensures r == Err(ResourceNotFound("Relationships file at path: " + path)) <==> path !in relationships
      ensures var name := Utils.TryStripLeadingSlash(path);
              r.Ok? <==> path in relationships && ByName(zip, name).Ok? &&
                         codec.utf8(Contents(ByName(zip, name).value)).Some?
      ensures r.Ok? ==> r.value == f(codec.utf8(Contents(ByName(zip, Utils.TryStripLeadingSlash(path)).value)).value)
    {
      if path !in relationships then Err(ResourceNotFound("Relationships file at path: " + path))
      else
        var text :- EntryText(Utils.TryStripLeadingSlash(path));
        Ok(f(text))
    }

    /** `with_content_types_xml`: the caller's function of the raw text of
        "[Content_Types].xml". */
    function WithContentTypesXml<T>(f: string -> T): (r: Result<T, Error>)
      ensures r.Ok? <==> ByName(zip, CT.PartName).Ok? && codec.utf8(Contents(ByName(zip, CT.PartName).value)).Some?
      ensures r.Ok? ==> r.value == f(codec.utf8(Contents(ByName(zip, CT.PartName).value)).value)
      ensures ByName(zip, CT.PartName).Err? ==> r == Err(Zip(FileNotFound))
    {
      var text :- EntryText(CT.PartName);
      Ok(f(text))
    }
  }
}
