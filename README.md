# A verified model of the 3MF package core

3MF is a ZIP container that follows the Open Packaging Conventions
(ISO/IEC 29500-2). Clause 10.1.2 defines the content-types stream
`[Content_Types].xml`; clause 9.3 defines the relationships files; the
package relationships live in `_rels/.rels`. The root 3D model and the
thumbnails are found through relationships, as chapter 2 ("Parts and
Relationships") of the 3MF Core Specification describes. This project
models the core of a Rust 3MF library in Dafny and proves properties of
that model. The library exists in two generations: the older crate (`src/`)
and the newer one (`threemf2/`).

What is modelled, module by module:

- **Scalar codecs and tables**:
  - `Utils`: stripping a target's leading slash.
  - `ContentTypes`: the content-type defaults.
  - `Relationships`: the relationship types.
  - `CoreEnums`: unit, object type, beam-lattice modes and boolean operation.
  - `ThreemfNamespaces` and `LegacyNamespaces`: namespace URI, prefix and `xmlns` tables.
  - `MetadataCodec`: the `preserve` decoder.
  - `ThumbnailHandle`: choosing an image format from a file extension.

  Some of these are string-to-variant maps; their round trips are proved.
- **The document model** (`CoreTypes`): model, resources, objects,
  meshes, beam lattices, triangle sets, components, build and items.
  Floating-point values are opaque 64-bit patterns.
- **The archive** (`Zip`, `IoError`, `Codecs`): a ZIP archive is a
  sequence of named entries in central-directory order, each a file with
  its bytes or a directory. The foreign coders are arbitrary, possibly
  failing functions held in a `Codec` (reading) or an `Encoder` (writing):
  UTF-8, the two XML decoders, the `xmlns` scanner, image decoding and
  encoding. Everything proved holds whatever those functions do.
- **Archive helpers** (`ZipUtils`), for both crates, whose helpers are
  textually the same. It covers:
  - setup and content types;
  - the choice of the relationships extension;
  - relationship-file discovery;
  - reading a relationships file by name;
  - the walk that hands each relationship's part to the processor.
- **The eager package** (`Package`, `PackageProcessor`, `PackageReader`):
  - the in-memory package;
  - the writer, which emits the content types first and then every
    relationships file followed by its targets;
  - `From<Model>`;
  - the processor class filled while reading;
  - `from_reader`.
- **The pull package** (`PackagePull`): a class whose relationship tables
  are read when it is opened. Its three caches (sub-models, thumbnails,
  unknown parts) are filled on first access. Access is gated on the
  relationship type.
- **The model builder** (`BuilderParts`, `ModelBuilding`):
  - the sub-builders are values;
  - the closures that configure them are functions from builder to builder;
  - `ModelBuilder` is a class.

  Its proved invariant: object ids run 1, 2, 3, ..., components refer only
  to earlier objects, and under the Production extension every object and
  component has a uuid.
- **Namespace usage** (`UsedNamespaces`): `Model::used_namespaces` of the
  newer crate.
- **Queries** (`Query`, `LegacyQuery`, `PackageQuery`): the query layers of
  both crates and the older crate's package-level lookups.

Rust's `HashMap` and `HashSet` do not fix an iteration order.
- A method that iterates one picks the keys itself and returns the order it
  used as a ghost value.
- A pure query takes that order as a parameter constrained to enumerate the
  keys.

Either way, every proved property holds for every order.

Two quirks of the builder are modelled as written, and lemmas record what
follows from them:
- `BuildBuilder::build` drops the build's uuid (`BuildDropsUuid`).
- The triangle-set namespace is recommended only while every recommended
  namespace so far is that namespace, so it can be recommended twice
  (`TriangleSetNsRepeats`, `TriangleSetNsBlocked`).

A third consequence of the code as written: the Production check looks at
the build only when there is at least one object
(`ItemWithoutUuidGetsThrough`). The pull package caches under both
`CachePolicy` values, as its code does, although its documentation says
otherwise.

## Model

| member | source | states |
|---|---|---|
| Utils.TryStripLeadingSlash | src/io/utils.rs:1-6 | a target starting with "/" loses exactly that first character; any other target is returned unchanged |
| Utils.StripIsShortSuffix | src/io/utils.rs:2-5 | the result is a suffix of the input and at most one character shorter |
| Utils.StripNotIdempotent | src/io/utils.rs:2 | only one slash is removed: "//a" becomes "/a", and stripping again changes it further |
| Utils.StripAfterSlash | src/io/utils.rs:1-6 | a name prefixed with "/" and stripped is the name again |
| Utils.FileName | src/io/zip_utils.rs:175-178 | the last component of an entry name: a suffix of it that holds no "/" |
| Utils.Extension | src/io/zip_utils.rs:175-178 | an extension is the text after the last "." of the file name, with a non-empty stem before it; when there is none, the file name is ".." or has no "." after its first character |
| Utils.RootRelsHasNoExtension | src/io/zip_utils.rs:175-178 | "_rels/.rels" has no extension of its own, since its file name starts with its only "." |
| Utils.ModelRelsExtension | src/io/zip_utils.rs:175-178 | a part's relationships file such as "3D/_rels/3dmodel.model.rels" has the extension "rels" |
| ContentTypes.FromString | src/io/content_types.rs:107-117 | each of the four MIME strings maps, exactly and case-sensitively, to its own variant; every other string s maps to Unknown(s) |
| ContentTypes.Serialize | src/io/content_types.rs:55-72 | each content type is written as its MIME string, and an Unknown type as the text it holds; ParseThenSerialize and SerializeThenParse make it the inverse of FromString |
| ContentTypes.ParseThenSerialize | src/io/content_types.rs:55-72 | writing the parsed content type of any string gives that string back |
| ContentTypes.SerializeThenParse | src/io/content_types.rs:55-72 | parsing the written text gives every variant back, except an Unknown holding one of the four known strings, which comes back as a known variant |
| ContentTypes.Deserialize | src/io/content_types.rs:83-100 | a filled slot gives DuplicateValue and stays unchanged; absent text gives MissingValue; a decoder error is passed on; otherwise the slot holds the parsed content type |
| Relationships.FromString | threemf2/src/io/relationship.rs:141-149 | the thumbnail and 3D-model type URIs map to Thumbnail and Model; every other string s maps to Unknown(s) |
| Relationships.Serialize | threemf2/src/io/relationship.rs:87-102 | each relationship type is written as its type URI, and an Unknown type as the text it holds; ParseThenSerialize and SerializeThenParse make it the inverse of FromString |
| Relationships.ParseThenSerialize | threemf2/src/io/relationship.rs:87-102 | writing the parsed type of any string gives that string back |
| Relationships.SerializeThenParse | threemf2/src/io/relationship.rs:87-102 | parsing the written text gives every type back, except an Unknown holding one of the two known URIs |
| Relationships.Deserialize | threemf2/src/io/relationship.rs:113-134 | a filled slot gives DuplicateValue and stays unchanged; absent text gives MissingValue; otherwise the slot holds exactly what FromString gives for the text |
| CoreEnums.UnitName | src/core/model.rs:45-54 | each unit is written as its variant name in lower case (the `rename_all = "lowercase"` serialisation); UnitRoundTrip shows that UnitFrom reads every such name back |
| CoreEnums.UnitFrom | src/core/model.rs:56-68 | the ASCII-lowered text names the unit that is returned, or names no unit and Millimeter, the default, is returned (threemf2/src/core/model.rs:75-87 is the same function) |
| CoreEnums.UnitRoundTrip | src/core/model.rs:45-54 | the lower-case name each unit is written with parses back to that unit |
| CoreEnums.ObjectTypeName | src/core/object.rs:107-127 | each object type is written as its variant name in lower case (the `rename_all = "lowercase"` serialisation); ObjectTypeRoundTrip shows that ObjectTypeFrom reads every such name back |
| CoreEnums.ObjectTypeFrom | src/core/object.rs:130-141 | the ASCII-lowered text names the object type returned, or names none and Model, the default, is returned |
| CoreEnums.ObjectTypeRoundTrip | src/core/object.rs:110-127 | the lower-case name of each object type parses back to it |
| CoreEnums.BallModeName | src/core/beamlattice.rs:117-130 | each ball mode is written as its variant name in lower case (the `rename_all = "lowercase"` serialisation); BallModeRoundTrip shows that BallModeFrom reads every such name back |
| CoreEnums.BallModeFrom | src/core/beamlattice.rs:132-141 | the ASCII-lowered text names the ball mode returned, or names none and None, the default, is returned |
| CoreEnums.BallModeRoundTrip | src/core/beamlattice.rs:120-130 | the lower-case name of each ball mode parses back to it |
| CoreEnums.ClippingModeName | src/core/beamlattice.rs:149-163 | each clipping mode is written as its variant name in lower case (the `rename_all = "lowercase"` serialisation); ClippingModeRoundTrip shows that ClippingModeFrom reads every such name back |
| CoreEnums.ClippingModeFrom | src/core/beamlattice.rs:165-174 | the ASCII-lowered text names the clipping mode returned, or names none and None, the default, is returned |
| CoreEnums.ClippingModeRoundTrip | src/core/beamlattice.rs:151-163 | the lower-case name of each clipping mode parses back to it |
| CoreEnums.CapModeName | src/core/beamlattice.rs:181-194 | each cap mode is written as its variant name in lower case (the `rename_all = "lowercase"` serialisation); CapModeRoundTrip shows that CapModeFrom reads every such name back |
| CoreEnums.CapModeFrom | src/core/beamlattice.rs:196-205 | the ASCII-lowered text names the cap mode returned, or names none and Sphere, the default, is returned |
| CoreEnums.CapModeRoundTrip | src/core/beamlattice.rs:184-194 | the lower-case name of each cap mode parses back to it |
| CoreEnums.BooleanOperationName | threemf2/src/core/booleanshape.rs:54-64 | each boolean operation is written as its variant name in lower case (the `rename_all = "lowercase"` serialisation); BooleanOperationRoundTrip shows that BooleanOperationFrom reads every such name back |
| CoreEnums.BooleanOperationFrom | threemf2/src/core/booleanshape.rs:66-75 | the ASCII-lowered text names the operation returned, or names none and Union, the default, is returned |
| CoreEnums.BooleanOperationRoundTrip | threemf2/src/core/booleanshape.rs:57-64 | the lower-case name of each operation parses back to it |
| CoreEnums.CaseInsensitive | src/core/object.rs:132 | every parser gives the same value for two spellings that differ only in ASCII letter case |
| ThreemfNamespaces.Uri | threemf2/src/threemf_namespaces.rs:55-64 | each of the five namespaces has its URI constant; UriInjective shows that no two share one |
| ThreemfNamespaces.Prefix | threemf2/src/threemf_namespaces.rs:66-77 | Core is the default namespace and has no prefix; Prod, BeamLattice, CoreTriangleSet and Boolean have "p", "b", "t" and "bo"; PrefixFacts shows only Core lacks one and no two share one |
| ThreemfNamespaces.XmlnsDeclaration | threemf2/src/threemf_namespaces.rs:79-85 | ` xmlns:prefix="uri"` for a prefixed namespace and ` xmlns="uri"` for Core; DeclarationHasKey and XmlnsDeclarationInjective give its shape and that distinct namespaces get distinct declarations |
| ThreemfNamespaces.UriInjective | threemf2/src/threemf_namespaces.rs:56-64 | the five namespace URIs are pairwise distinct |
| ThreemfNamespaces.PrefixFacts | threemf2/src/threemf_namespaces.rs:69-77 | only Core has no prefix, and the prefixes "p", "b", "t" and "bo" are pairwise distinct |
| ThreemfNamespaces.DeclarationHasKey | threemf2/src/threemf_namespaces.rs:80-85 | every declaration starts with " xmlns"; Core's continues with "=" (the default-namespace form), every other one with ":" and its prefix |
| ThreemfNamespaces.XmlnsDeclarationInjective | threemf2/src/threemf_namespaces.rs:54-86 | distinct namespaces are declared by distinct attributes |
| LegacyNamespaces.Uri | src/threemf_namespaces.rs:42-50 | each of the four namespaces has its URI constant; UriInjective shows that no two share one |
| LegacyNamespaces.Prefix | src/threemf_namespaces.rs:52-62 | Core has no prefix; Prod, BeamLattice and CoreTriangleSet have "p", "b" and "t"; PrefixFacts shows only Core lacks one and no two share one |
| LegacyNamespaces.XmlnsDeclaration | src/threemf_namespaces.rs:64-70 | ` xmlns:prefix="uri"` for a prefixed namespace and ` xmlns="uri"` for Core; DeclarationHasKey and XmlnsDeclarationInjective give its shape and injectivity |
| LegacyNamespaces.UriInjective | src/threemf_namespaces.rs:43-50 | the four namespace URIs are pairwise distinct |
| LegacyNamespaces.PrefixFacts | src/threemf_namespaces.rs:55-62 | only Core has no prefix, and "p", "b" and "t" are pairwise distinct |
| LegacyNamespaces.DeclarationHasKey | src/threemf_namespaces.rs:65-70 | every declaration starts with " xmlns"; Core's continues with "=", every other one with ":" and its prefix |
| LegacyNamespaces.XmlnsDeclarationInjective | src/threemf_namespaces.rs:41-71 | distinct namespaces are declared by distinct attributes |
| ThumbnailHandle.FromExt | src/io/thumbnail_handle.rs:9-15 | "png" in any letter case gives Png; "jpg" or "jpeg" in any case gives Jpeg; every other extension gives Unknown |
| ThumbnailHandle.FromExtCaseInsensitive | src/io/thumbnail_handle.rs:10 | the format of an extension equals the format of its lower-cased form |
| ThumbnailHandle.UpperCaseExtensions | src/io/thumbnail_handle.rs:8-16 | "PNG", "JPG" and "JPEG" are recognised and "tiff" is not |
| MetadataCodec.ParseBool | src/core/metadata.rs:89 | the text parses to true exactly when it is "true" and to false exactly when it is "false" |
| MetadataCodec.DeserializePreserve | src/core/metadata.rs:74-100 | a filled slot gives DuplicateValue and stays unchanged; absent text gives MissingValue("No Must Preserve value found"); "true" and "false" fill the slot with Preserve(true) and Preserve(false); other text gives MissingValue("Not a valid boolean value") and leaves the slot empty |
| Zip.ByName | src/io/zip_utils.rs:205-209 | a lookup by name succeeds exactly when the first entry with the name exists, and then yields that entry; otherwise it reports FileNotFound |
| Zip.FindIn | src/io/zip_utils.rs:205 | the search from the front of the archive that `ByName` performs, with the same contract over any sequence of entries |
| Zip.FirstIndex | src/io/zip_utils.rs:205 | the position of the first entry with the name, or the number of entries when there is none; the entry there has the name |
| Zip.FirstIndexIsFirst | src/io/zip_utils.rs:205 | no entry before that position has the name |
| Zip.ByNameFound | src/io/zip_utils.rs:205-209 | a lookup succeeds exactly when some entry has the name |
| Zip.EnclosedName | src/io/zip_utils.rs:176 | a name is accepted exactly when it holds no NUL character and does not start at the root, and is then returned unchanged |
| Codecs.ReadToString | src/io/zip_utils.rs:91-92 | the text is the entry's bytes decoded as UTF-8; bytes that are not UTF-8 give an I/O error |
| Codecs.DeserializeModel | src/io/zip_utils.rs:87-103 | unreadable text gives an I/O error; otherwise the result is the model decoder's result on the text, for either decoder strategy |
| Codecs.DeserializeModelWithNamespaces | threemf2/src/io/zip_utils.rs:71-88 | unreadable text gives an I/O error; a decoding error is passed on; a decoded model comes with the namespace declarations scanned from the same text |
| Codecs.DeserializeModelAgree | threemf2/src/io/zip_utils.rs:71-88 | the newer crate's model decoding succeeds exactly when the older crate's does, with the same model, plus the scanned namespaces |
| ZipUtils.ParseContentTypes | src/io/zip_utils.rs:139-153 | a missing "[Content_Types].xml" gives Zip(FileNotFound); text that is not UTF-8 gives an I/O error; a success is the decoded content types together with the exact text of that entry; the newer crate's function of the same name does the same |
| ZipUtils.FirstRelationshipDefault | src/io/zip_utils.rs:155-160 | the index found is the first default whose content type is the relationships type; none is found exactly when no default has that type |
| ZipUtils.DetermineRelationshipsExtension | src/io/zip_utils.rs:155-162 | the extension of the first relationships-typed default; "rels" when there is no such default; the newer crate's function of the same name does the same |
| ZipUtils.RootRelsFilename | src/io/zip_utils.rs:134 | the root relationships name is "_rels/." followed by the extension; SetupArchiveAndContentTypes and DefaultRootRels state this for the chosen extension |
| ZipUtils.SetupArchiveAndContentTypes | src/io/zip_utils.rs:125-137 | fails exactly when reading the content types fails, with the same error; on success holds the content types and their text, and the root relationships name "_rels/." followed by the chosen extension; the newer crate's function of the same name does the same |
| ZipUtils.DefaultRootRels | src/io/zip_utils.rs:134 | without a relationships-typed default the root relationships name is "_rels/.rels" |
| ZipUtils.DiscoverRelationshipFiles | src/io/zip_utils.rs:165-191 | the result is the slash-prefixed names of the file entries, in archive order, whose enclosed name has the relationships extension and differs from the root relationships name; the newer crate's function of the same name does the same |
| ZipUtils.RelationshipFilesMembers | src/io/zip_utils.rs:175-181 | a path is discovered exactly when it is "/" followed by the name of some kept entry |
| ZipUtils.DiscoveredShape | src/io/zip_utils.rs:175-181 | every discovered path starts with "/", has the relationships extension once the slash is removed, is not the root relationships file, and names a file entry of the archive |
| ZipUtils.RelationshipsFromZipByName | src/io/zip_utils.rs:200-210 | a missing entry gives Zip(FileNotFound); text that is not UTF-8 gives an I/O error; otherwise the result is the relationships decoder's result on the entry's text; the newer crate's function of the same name does the same |
| ZipUtils.FirstModelTarget | src/io/threemf_package.rs:196-208 | a root model path is found exactly when some relationship has the Model type, and it is the target of the first such relationship |
| ZipUtils.FirstModelIn | src/io/threemf_package.rs:196-208 | the target found is that of the first Model relationship of the sequence; none is found exactly when there is no Model relationship |
| ZipUtils.LoadFacts | src/io/zip_utils.rs:243-277 | with the leading slash removed from the target: a missing entry gives Zip(FileNotFound); a directory gives the "Found a folder" read error; a thumbnail is the image decoded from the bytes; a model is the decoded model; an unknown part is the bytes unchanged |
| ZipUtils.Loads | src/io/zip_utils.rs:242-244 | one load outcome per relationship, each that relationship's load |
| ZipUtils.LoadsPrefix | src/io/zip_utils.rs:242 | the load outcomes of a prefix are the prefix of the load outcomes |
| ZipUtils.LoadsAppend | src/io/zip_utils.rs:241-242 | the load outcomes of two runs of relationships are those of the first run followed by those of the second |
| ZipUtils.ProcessAllStep | src/io/zip_utils.rs:242-279 | processing one more relationship fails if the earlier ones failed; otherwise it is one more step from the state they left |
| ZipUtils.ApplyAllAppend | src/io/zip_utils.rs:241-280 | storing two runs of outcomes: the second starts from the state the first left, unless the first failed |
| ZipUtils.ProcessAllAppend | src/io/zip_utils.rs:241-280 | processing two runs of relationships: the second starts from the state the first left, unless the first failed |
| ZipUtils.FlattenAppend | src/io/zip_utils.rs:241-242 | the relationships of two runs of files are those of the first run followed by those of the second |
| ZipUtils.ApplyAllOk | src/io/zip_utils.rs:255-277 | storing a run of outcomes succeeds exactly when every outcome is a success |
| ZipUtils.ProcessAllOk | src/io/zip_utils.rs:241-281 | processing succeeds exactly when every relationship's part can be loaded |
| ZipUtils.ApplyAllFirstError | src/io/zip_utils.rs:259-277 | a failed run reports the error of the first failed outcome |
| ZipUtils.ProcessAllFirstError | src/io/zip_utils.rs:241-281 | a failed run reports the error of the first relationship whose part cannot be loaded, and every earlier one loads |
| ZipUtils.ApplyAllKeys | src/io/zip_utils.rs:255-275 | after a successful run, each of the processor's maps holds its old keys plus the targets of the relationships of its kind, and the root is set exactly when it was before or a Model relationship targets the root path |
| ZipUtils.KeysStep | src/io/zip_utils.rs:255-275 | storing one more outcome of the matching kind extends the key facts by that relationship |
| ZipUtils.LoadKind | src/io/zip_utils.rs:255-275 | a loaded part is a model exactly when its relationship is a Model and an image exactly when it is a Thumbnail |
| ZipUtils.ProcessAllKeys | src/io/zip_utils.rs:255-275 | after a successful run the root is set exactly when it was before or some Model relationship targets the root model path; sub-models, thumbnails and unknown parts hold exactly their old keys plus the targets of their kind (sub-models: the Model targets other than the root path); relationships and content types are unchanged |
| ZipUtils.InitialFaithful | src/io/threemf_package.rs:272-281 | an empty processor holds nothing that disagrees with the archive |
| ZipUtils.StoreModelFaithful | src/io/zip_utils.rs:243-277 | filing a model that the archive yields under its target, as the root when the target is the root model path, keeps the processor faithful to the archive |
| ZipUtils.StoreThumbnailFaithful | src/io/zip_utils.rs:243-277 | filing an image that the archive yields under its target keeps the processor faithful to the archive |
| ZipUtils.StoreUnknownFaithful | src/io/zip_utils.rs:243-277 | filing the bytes the archive yields under an unknown part's target keeps the processor faithful to the archive |
| ZipUtils.ProcessOneFaithful | src/io/zip_utils.rs:243-277 | one step keeps every stored root, sub-model, thumbnail and unknown part equal to what its key's part in the archive decodes to |
| ZipUtils.ProcessAllFaithful | src/io/zip_utils.rs:241-281 | a whole run keeps every stored part equal to what its key's part in the archive decodes to |
| ZipUtils.ProcessRelationship | src/io/zip_utils.rs:243-277 | the processor's new state and the outcome are those of one step of the specification: a missing entry, a directory, or a failing decode is the error; otherwise the part is stored under its target |
| ZipUtils.ProcessRelationshipsFile | src/io/zip_utils.rs:242-279 | the relationships of one file are processed in order and the first error stops, as the specification's run over them |
| ZipUtils.ProcessRelationships | src/io/zip_utils.rs:234-282 | the files are visited in some enumeration of the map's keys, and the outcome and the new processor state are the specification's run over their relationships in that order |
| PackageProcessor.StoreModel | src/io/threemf_package.rs:307-313 | a root model replaces the root and leaves the sub-models alone; any other model is filed under its target, the other keys unchanged; thumbnails, unknown parts, relationships and content types are untouched |
| PackageProcessor.StoreThumbnail | src/io/threemf_package.rs:317-318 | the image is filed under its target, the other keys are unchanged, and every other field is untouched |
| PackageProcessor.StoreUnknown | src/io/threemf_package.rs:322-329 | the bytes are filed under the target, the other keys are unchanged, every other field is untouched, and the content type is not kept |
| PackageProcessor.ThreemfPackageProcessor.constructor | src/io/threemf_package.rs:272-281 | a new processor has no root, empty maps and the given content types |
| PackageProcessor.ThreemfPackageProcessor.SetRelationships | src/io/threemf_package.rs:283-285 | the relationships table is replaced and nothing else changes |
| PackageProcessor.ThreemfPackageProcessor.IntoThreemfPackage | src/io/threemf_package.rs:287-296 | the package holds the root and every collected map and the content types unchanged |
| PackageProcessor.ThreemfPackageProcessor.ProcessModel | src/io/threemf_package.rs:300-314 | a decoding failure is returned and changes nothing; a decoded model is stored as the root or under its target |
| PackageProcessor.ThreemfPackageProcessor.ProcessThumbnail | src/io/threemf_package.rs:316-320 | an image decoding failure is returned and changes nothing; a decoded image is stored under its target |
| PackageProcessor.ThreemfPackageProcessor.ProcessUnknown | src/io/threemf_package.rs:322-330 | never fails and stores the bytes under the target |
| Package.StepsOf | src/io/threemf_package.rs:72-75 | a relationships file is written first, followed by one part per relationship it holds, in its order |
| Package.StepOutput | src/io/threemf_package.rs:73-116 | a written relationships file is stored under its own path and a written part under its target with one leading "/" removed |
| Package.WriteAllOk | src/io/threemf_package.rs:72-118 | writing succeeds exactly when every step can be written, and then writes one entry per step, in step order |
| Package.WriteAllStopsAtError | src/io/threemf_package.rs:73-114 | once a step fails, the steps after it change nothing |
| Package.WriteAllAppend | src/io/threemf_package.rs:72-118 | writing two runs of steps: the first error wins, otherwise the entries of the second follow those of the first |
| Package.StepsAppend | src/io/threemf_package.rs:72 | the steps of two runs of relationships files are those of the first run followed by those of the second |
| Package.StepsCover | src/io/threemf_package.rs:72-75 | every visited relationships file and each of its relationships has its step |
| Package.WriteInOrderLayout | src/io/threemf_package.rs:67-72 | writing succeeds exactly when the content types and every later step can be written, and the first entry is "[Content_Types].xml" |
| Package.WriteFailsOnMissingTarget | src/io/threemf_package.rs:79-115 | a Model target outside "_rels/.rels" with no sub-model, a Thumbnail target with no image or an Unknown target with no data makes writing fail, in whatever order the files are visited |
| Package.WriteAllContains | src/io/threemf_package.rs:72-118 | after a successful write the entry of every step is among those written |
| Package.WriteStoresTargets | src/io/threemf_package.rs:72-118 | after a successful write every relationships file has an entry under its path, and every target it names has one under the target minus one leading "/" |
| Package.FromModel | src/io/threemf_package.rs:334-367 | a package whose root is the model, with no sub-models, thumbnails or unknown parts, a single "_rels/.rels" file holding one Model relationship "rel0" to "3D/3dmodel.model", and defaults for "model" and "rels"; FromModelWritable gives the entries it is written as |
| Package.FromModelWritable | src/io/threemf_package.rs:334-367 | a package made from a model is written, when the encoders succeed, as exactly three entries: the content types, "_rels/.rels", and the root model under "3D/3dmodel.model" with the XML declaration in front |
| Package.WritePart | src/io/threemf_package.rs:76-115 | under "_rels/.rels" a Model target is the root model; elsewhere it must be a sub-model; thumbnails are written as PNG and unknown parts as their bytes; a missing target gives the matching WriteError message |
| Package.WriteRelationshipsFile | src/io/threemf_package.rs:73-117 | one relationships file and then its parts, stopping at the first entry that cannot be written |
| Package.Write | src/io/threemf_package.rs:67-121 | the files are visited in some enumeration of the relationships map's keys, and the entries are the content types followed by each file's steps in that order, or the first error |
| PackageReader.DiscoveredSlashed | src/io/threemf_package.rs:213-218 | every discovered relationships path has the leading "/" that is cut off before the file is read |
| PackageReader.Discovered | src/io/threemf_package.rs:213-214 | every relationships file found besides the root one is a "/"-prefixed path |
| PackageReader.RootModelPath | src/io/threemf_package.rs:196-207 | the target of the first Model relationship of the root relationships file, or ReadError("Root model relationship not found"); HeaderFacts and MissingRootModel state both outcomes for a whole read |
| PackageReader.LoadRelationshipFiles | src/io/threemf_package.rs:211-222 | the discovered relationships files read in order into the table under their "/"-prefixed paths, each read without the "/", stopping at the first error; LoadRelationshipFilesKeys and LoadRelationshipFilesStopsAtError state its keys and its error behaviour |
| PackageReader.LoadRelationshipFilesStopsAt | src/io/threemf_package.rs:215-222 | once the first n files fail to load, loading all of them gives that same error |
| PackageReader.LoadRelationshipFilesStep | src/io/threemf_package.rs:215-222 | after a successful prefix, a failure to read the next file is the error of the whole load, and a success adds that file to the table under its path |
| PackageReader.LoadRelationshipFilesStopsAtError | src/io/threemf_package.rs:215-222 | once reading one relationships file fails, the files after it change nothing |
| PackageReader.LoadRelationshipFilesKeys | src/io/threemf_package.rs:215-222 | the table holds its earlier keys plus exactly the paths read, and earlier entries not read again are kept |
| PackageReader.MissingRootModel | src/io/threemf_package.rs:196-208 | a root relationships file with no Model relationship makes reading fail with ReadError("Root model relationship not found") |
| PackageReader.HeaderFacts | src/io/threemf_package.rs:173-208 | the header holds the content types and root relationships name chosen from the archive, the relationships read under that name, and the first Model target as the root model path |
| PackageReader.LoadedTable | src/io/threemf_package.rs:210-222 | loading files other than the root one onto the table holding only the root file keeps the root entry and adds exactly the files read |
| PackageReader.OpenedTable | src/io/threemf_package.rs:210-223 | the table always holds the root relationships file; without sub-model processing it is the only key, and with it the keys are the root file plus exactly the discovered files |
| PackageReader.FlattenContains | src/io/zip_utils.rs:241-242 | every relationship of every visited relationships file is processed |
| PackageReader.ReadSetsRoot | src/io/threemf_package.rs:287-289 | a successful read always has a root model, so `into_threemf_package`'s expect never fires |
| PackageReader.ReadFaithful | src/io/threemf_package.rs:166-239 | after a successful read the root is the model decoded from the root model path, every sub-model, thumbnail and unknown part is what the part under its key decodes to, and the keys are exactly the targets of the relationships of each kind |
| PackageReader.ReadHeader | src/io/threemf_package.rs:173-208 | the outcome is that of reading the content types, the root relationships file and the root model path, failing at the first error |
| PackageReader.ReadTable | src/io/threemf_package.rs:188-223 | the table is the root relationships file and, when sub-models are processed, every discovered relationships file in discovery order; the first read error stops |
| PackageReader.Open | src/io/threemf_package.rs:173-223 | the outcome is the header followed by the relationships table, failing at the first error |
| PackageReader.FromReader | src/io/threemf_package.rs:166-239 | the files are visited in some enumeration of the table's keys, and the package carries exactly the processor state the specification gives for that order, with the relationships table handed over; any failure is the specification's error |
| PackagePull.LoadModel | src/io/threemf_package_pull.rs:358-362 | a missing entry, looked up without the leading "/", gives Zip(FileNotFound); otherwise the entry is decoded as a model, directory entries included |
| PackagePull.LoadThumbnail | src/io/threemf_package_pull.rs:364-372 | a missing entry gives Zip(FileNotFound); otherwise the entry's bytes are decoded as an image |
| PackagePull.LoadUnknownPart | src/io/threemf_package_pull.rs:374-380 | succeeds exactly when the entry exists and then yields its bytes unchanged; otherwise Zip(FileNotFound) |
| PackagePull.DefaultCachePolicy | src/io/threemf_package_pull.rs:19-26 | the default cache policy is NoCache |
| PackagePull.CachedAccess | src/io/threemf_package_pull.rs:192-224 | a disallowed path gives nothing and leaves the cache; a cached path gives its cached value; otherwise the load is passed on and, when it succeeds, cached under the path; cached entries are never dropped or changed |
| PackagePull.Targets | src/io/threemf_package_pull.rs:132-138 | the targets of the relationships of one kind, in order; TargetsMembers and TargetsAppend give its members and its order |
| PackagePull.Paths | src/io/threemf_package_pull.rs:128-165 | `model_paths`, `thumbnail_paths` and `unknown_part_paths`: the targets of the kind over every relationships file in the map's order; PathsMembers and PathsInOrder give what it lists for any order |
| PackagePull.TargetsAppend | src/io/threemf_package_pull.rs:128-165 | the targets of two runs of relationships are those of the first run followed by those of the second |
| PackagePull.TargetsMembers | src/io/threemf_package_pull.rs:132-138 | a path is listed exactly when some relationship of the kind targets it |
| PackagePull.PathsInOrder | src/io/threemf_package_pull.rs:128-165 | a path is listed exactly when some visited relationships file has a relationship of the kind that targets it |
| PackagePull.PathsMembers | src/io/threemf_package_pull.rs:128-165 | `model_paths`, `thumbnail_paths` and `unknown_part_paths` each list exactly the targets of the relationships of their kind, in whatever order the files are visited |
| PackagePull.CacheTransparent | src/io/threemf_package_pull.rs:192-224 | while every cached value is what loading its path gives, a cached access returns what an uncached read would, and the cache keeps that property |
| PackagePull.CacheRepeat | src/io/threemf_package_pull.rs:197-200 | once an access has succeeded, repeating it gives the same result and leaves the cache as it is, whatever a new load would give |
| PackagePull.OpenFacts | src/io/threemf_package_pull.rs:55-100 | opening reads the same header and table as the eager reader with sub-models on: the root model path is the first Model target of the root relationships file, and the table holds that file and exactly the discovered ones |
| PackagePull.ThreemfPackagePull.IsSubModelPath | src/io/threemf_package_pull.rs:176-190 | a path is a sub-model path exactly when it is not the root model path and some Model relationship targets it |
| PackagePull.ThreemfPackagePull.constructor | src/io/threemf_package_pull.rs:102-113 | the package holds the archive, the decoder choice, the cache policy, the content types, the relationships and the root model path, with every cache empty |
| PackagePull.ThreemfPackagePull.FromReader | src/io/threemf_package_pull.rs:55-114 | fails exactly when reading the content types, root relationships, root model path or another relationships file fails, with that error; otherwise a fresh package holding what was read, with nothing loaded yet |
| PackagePull.ThreemfPackagePull.RootModel | src/io/threemf_package_pull.rs:167-170 | the result is always what the archive holds under the root model path; the first success is kept, and the other caches are untouched |
| PackagePull.ThreemfPackagePull.WithSubModel | src/io/threemf_package_pull.rs:172-225 | nothing for the root model path or a path no Model relationship targets; otherwise the caller's function of the cached or freshly loaded model, which is then cached; the result always equals an uncached read |
| PackagePull.ThreemfPackagePull.WithThumbnail | src/io/threemf_package_pull.rs:227-255 | nothing unless a Thumbnail relationship targets the path; otherwise the caller's function of the cached or freshly decoded image, which is then cached; the result always equals an uncached read |
| PackagePull.ThreemfPackagePull.WithUnknownPart | src/io/threemf_package_pull.rs:260-292 | nothing unless an Unknown relationship targets the path; otherwise the caller's function of the cached or freshly read bytes, which are then cached; the result always equals an uncached read |
| PackagePull.ThreemfPackagePull.WithModelXml | src/io/threemf_package_pull.rs:297-321 | a path no Model relationship targets gives ResourceNotFound("Model at path: " + path); success needs the entry and readable text, and gives the caller's function of that text |
| PackagePull.ThreemfPackagePull.WithRelationshipsXml | src/io/threemf_package_pull.rs:326-342 | a path that is not a relationships key gives ResourceNotFound("Relationships file at path: " + path); success needs the entry and readable text, and gives the caller's function of that text |
| PackagePull.ThreemfPackagePull.WithContentTypesXml | src/io/threemf_package_pull.rs:345-356 | a missing "[Content_Types].xml" gives Zip(FileNotFound); success needs readable text, and gives the caller's function of it |
| BuilderParts.NewObjectBuilder | src/io/builder.rs:1171-1184 | a fresh object builder carries the given id, geometry builder and Production flag, has type Model, and has no uuid, name or part number |
| BuilderParts.AfterEdit | src/io/builder.rs:1089-1112 | after a closure's edits, only the type, name, part number, uuid and geometry are taken over; the id, Production flag, thumbnail, pid and pindex stay as they were |
| BuilderParts.AddVertex | src/io/builder.rs:1261-1268 | exactly one vertex with the given coordinates is appended, and nothing else changes |
| BuilderParts.VerticesOf | src/io/builder.rs:1283-1289 | one vertex per coordinate triple, in order |
| BuilderParts.AddVertices | src/io/builder.rs:1283-1289 | the vertices of the coordinate triples are appended in order, and nothing else changes |
| BuilderParts.FlatVertices | src/io/builder.rs:1305-1315 | a flat list gives one vertex per complete group of three coordinates; a trailing incomplete group is ignored |
| BuilderParts.AddVerticesFlat | src/io/builder.rs:1305-1315 | the vertices of the complete groups of three are appended in order, and nothing else changes |
| BuilderParts.AddTriangle | src/io/builder.rs:1334-1345 | exactly one triangle over the three indices, with no property indices, is appended, and nothing else changes |
| BuilderParts.TrianglesOf | src/io/builder.rs:1360-1366 | one triangle per index triple, in order |
| BuilderParts.AddTriangles | src/io/builder.rs:1360-1366 | the triangles of the index triples are appended in order, and nothing else changes |
| BuilderParts.FlatTriangles | src/io/builder.rs:1381-1395 | a flat list gives one triangle per complete group of three indices; a trailing incomplete group is ignored |
| BuilderParts.AddTrianglesFlat | src/io/builder.rs:1381-1395 | the triangles of the complete groups of three are appended in order, and nothing else changes |
| BuilderParts.AddTriangleSets | src/io/builder.rs:1414-1427 | the closure edits the mesh's triangle-set builder, which is created empty on first use; nothing else changes |
| BuilderParts.AddBeamLattice | src/io/builder.rs:1447-1459 | the closure edits the mesh's beam-lattice builder, which is created empty on first use; nothing else changes |
| BuilderParts.BuildMesh | src/io/builder.rs:1461-1474 | the mesh has the vertices and triangles as added, and triangle sets and a beam lattice exactly when their builders were used, built from them |
| BuilderParts.BuildMeshObject | src/io/builder.rs:1186-1205 | refused with ObjectUuidNotSet exactly when the Production extension is required and no uuid is set; otherwise the object carries the builder's id, type, name, part number and uuid, the built mesh and no components |
| BuilderParts.BuildTriangleSets | src/io/builder.rs:1829-1833 | the triangle sets are the sets added, in the order they were added (AddSet appends one) |
| BuilderParts.AddSet | src/io/builder.rs:1802-1827 | exactly one triangle set is appended, with the given name and identifier, one reference per index and one range per index pair |
| BuilderParts.BuildBeamSet | src/io/builder.rs:2285-2300 | the beam set keeps the name and identifier and has one beam reference and one ball reference per index, in order |
| BuilderParts.BuildBeam | src/io/builder.rs:2169-2181 | a beam carries the builder's two vertices, radii, property indices, pid and cap modes unchanged; AddBeam and BeamAdvancedIdentity show an unconfigured builder gives the plain beam |
| BuilderParts.AddBeam | src/io/builder.rs:1968-1972 | exactly one beam between the two vertices, with nothing else set, is appended, and nothing else changes |
| BuilderParts.AddBeamAdvanced | src/io/builder.rs:1983-1991 | exactly one beam, configured by the closure, is appended after the existing ones, and nothing else changes |
| BuilderParts.BeamAdvancedIdentity | src/io/builder.rs:1983-1991 | a closure that configures nothing gives the same lattice as `add_beam` |
| BuilderParts.AddBeams | src/io/builder.rs:1998-2003 | one plain beam per vertex pair is appended in order, and nothing else changes |
| BuilderParts.BuildBall | src/io/builder.rs:2221-2228 | a ball carries the builder's vertex, radius, property index and pid unchanged; AddBall and BallAdvancedIdentity show an unconfigured builder gives the plain ball |
| BuilderParts.AddBall | src/io/builder.rs:2012-2016 | exactly one ball at the vertex, with nothing else set, is appended, and nothing else changes |
| BuilderParts.AddBallAdvanced | src/io/builder.rs:2026-2034 | exactly one ball, configured by the closure, is appended after the existing ones, and nothing else changes |
| BuilderParts.BallAdvancedIdentity | src/io/builder.rs:2026-2034 | a closure that configures nothing gives the same lattice as `add_ball` |
| BuilderParts.AddBalls | src/io/builder.rs:2041-2046 | one plain ball per vertex index is appended in order, and nothing else changes |
| BuilderParts.AddBeamset | src/io/builder.rs:2053-2061 | exactly one beam set, built from a fresh beam-set builder the closure filled, is appended, and nothing else changes |
| BuilderParts.EmptyBeamset | src/io/builder.rs:2240-2247 | an untouched beam-set builder gives an unnamed beam set with no references |
| BuilderParts.BuildBeamLattice | src/io/builder.rs:2063-2095 | minimum length and radius default to 0.0001; the beams are kept; balls and beam sets are absent exactly when none were added; every other setting is carried over |
| BuilderParts.AddComponentAdvanced | src/io/builder.rs:1650-1661 | exactly one component, configured by the closure, is appended after the existing ones, and the ids it may refer to are unchanged; when the closure keeps the object id the component refers to the given object |
| BuilderParts.BuildComponent | src/io/builder.rs:1737-1744 | a component carries the builder's object id, transform, path and uuid unchanged; AddComponent shows the untouched builder gives a component with only the id set |
| BuilderParts.AddComponent | src/io/builder.rs:1626-1629 | exactly one component referring to the object, with nothing else set, is appended |
| BuilderParts.BuildComponents | src/io/builder.rs:1663-1691 | succeeds exactly when, with the Production extension, every component has a uuid, or, without it, none has a path, and every component refers to an existing object; the errors are checked in that order |
| BuilderParts.BuildComponentsObject | src/io/builder.rs:1570-1591 | a component error is passed on first; then a missing uuid under the Production extension gives ObjectUuidNotSet; otherwise the object carries the builder's attributes, the components and no mesh |
| BuilderParts.AfterComponentsEdit | src/io/builder.rs:560-578 | after a closure's edits, the ids a components object may refer to, its id and its Production flag are the builder's own, and the components are the closure's |
| BuilderParts.BuildItem | src/io/builder.rs:1040-1053 | a path without the Production extension gives ItemPathSetWithoutProductionExtension; the extension without a uuid gives ItemUuidNotSet; otherwise the item carries the builder's fields |
| BuilderParts.AddBuildItem | src/io/builder.rs:909-924 | the closure configures an item for the object, whose id it cannot change; a valid item is appended, an invalid one gives its error |
| BuilderParts.CanBuild | src/io/builder.rs:926-932 | the build is refused exactly when the Production extension is enabled and no uuid is set |
| BuilderParts.BuildBuild | src/io/builder.rs:934-941 | refused exactly when the Production extension is required without a uuid; otherwise the items as added, and no uuid |
| BuilderParts.BuildDropsUuid | src/io/builder.rs:934-941 | a build given a uuid loses it when built |
| ModelBuilding.ProductionCheckMeaning | src/io/builder.rs:390-417 | the Production check passes exactly when there are no objects, or when every object and component has a uuid and the build, if any, has a uuid and items that all have one |
| ModelBuilding.ProductionCheckErrors | src/io/builder.rs:390-417 | each error of the Production check names something actually missing: an object uuid, a component uuid, an item uuid or the build uuid |
| ModelBuilding.EnsureDeclared | src/io/builder.rs:770-824 | afterwards the namespace's URI is declared, no other URI is added, the list only grows at the end, and a list without repeated URIs keeps none |
| ModelBuilding.RequiredExtensions | src/io/builder.rs:770-824 | the user's list stays in front; the Production, beam lattice and balls URIs are declared exactly when listed or needed (extension required, a lattice, a lattice with balls); no other URI is added; no URI is added twice |
| ModelBuilding.RequiredExtensionsPlain | src/io/builder.rs:770-824 | without the Production extension and without lattices the user's list is used unchanged |
| ModelBuilding.BallsNeedLattice | src/io/builder.rs:798-818 | the balls namespace is only added along with the beam lattice namespace |
| ModelBuilding.ScanLattices | src/io/builder.rs:788-809 | the beam-lattice flag is set exactly when some object has a lattice, and the balls flag exactly when some lattice has balls |
| ModelBuilding.ExtensionsText | src/io/builder.rs:833-853 | a list whose namespaces have no prefix gives the empty text, and a single namespace gives its prefix and a space |
| ModelBuilding.ExtensionsAttribute | src/io/builder.rs:833-853 | the attribute is absent exactly when there are no extensions |
| ModelBuilding.GetExtensionsDefinition | src/io/builder.rs:833-853 | no attribute for no extensions; otherwise the prefixes, each followed by a space, of the distinct namespaces in one enumeration of the set |
| ModelBuilding.ExtensionsOfOne | src/io/builder.rs:833-853 | a list naming one namespace, however often, is written as its prefix and a space |
| ModelBuilding.ExtensionsWithoutPrefixes | src/io/builder.rs:833-853 | a non-empty list of namespaces without prefixes is written as an empty attribute, not left out |
| ModelBuilding.ExtensionsIgnoreRepeats | src/io/builder.rs:833-853 | listing a namespace again changes neither the set nor the text |
| ModelBuilding.WithTriangleSetNs | src/io/builder.rs:755-768 | the triangle-set namespace is appended exactly when the mesh has triangle sets and every recommended namespace so far has the triangle-set URI; otherwise the list is unchanged |
| ModelBuilding.TriangleSetNsRepeats | src/io/builder.rs:755-768 | two meshes with triangle sets append the triangle-set namespace twice |
| ModelBuilding.TriangleSetNsBlocked | src/io/builder.rs:755-768 | any other recommended namespace keeps the triangle-set one out |
| ModelBuilding.IdsOf | src/io/builder.rs:560-578 | the ids of the objects, in order |
| ModelBuilding.ObjectAdded | src/io/builder.rs:502-517 | the object is appended, the next id follows its own, the recommended namespaces are updated for a mesh, and nothing else changes |
| ModelBuilding.BuiltModel | src/io/builder.rs:722-753 | a root model without a build gives BuildItemNotSet; a sub-model with one gives BuildOnlyAllowedInRootModel; the Production extension without a build uuid gives BuildUuidNotSet; otherwise the model has the unit, metadata, extension attributes, the objects as resources, the build's items and no build uuid |
| ModelBuilding.BuiltModelWellFormed | src/io/builder.rs:502-517 | a built model numbers its objects 1, 2, 3, ... in order, its components refer only to earlier objects, and under the Production extension every object and component has a uuid |
| ModelBuilding.ItemWithoutUuidGetsThrough | src/io/builder.rs:390-417 | with no objects the Production check never looks at the build, so a model requiring the extension can be built with an item that has no uuid |
| ModelBuilding.ModelBuilder.constructor | src/io/builder.rs:325-337 | a new builder has the unit, nothing added, the first id 1 and the Production extension not required |
| ModelBuilding.ModelBuilder.Default | src/io/builder.rs:827-831 | the default builder is a root model in millimetres |
| ModelBuilding.ModelBuilder.SetUnit | src/io/builder.rs:342-345 | the unit is replaced and nothing else changes |
| ModelBuilding.ModelBuilder.MakeRoot | src/io/builder.rs:351-354 | the root flag is replaced and nothing else changes |
| ModelBuilding.ModelBuilder.MakeProductionExtensionRequired | src/io/builder.rs:390-417 | the outcome is the Production check over the objects so far; on success the extension is required from then on, on failure nothing changes; the builder's invariant is kept |
| ModelBuilding.ModelBuilder.AddRequiredExtension | src/io/builder.rs:423-426 | the namespace is appended to the required list and nothing else changes |
| ModelBuilding.ModelBuilder.AddRecommendedExtension | src/io/builder.rs:432-435 | the namespace is appended to the recommended list and nothing else changes |
| ModelBuilding.ModelBuilder.AddMetadata | src/io/builder.rs:446-453 | one metadata entry with the name, the value and no preserve flag is appended and nothing else changes |
| ModelBuilding.ModelBuilder.SetRecommendedNamespacesForMesh | src/io/builder.rs:755-768 | the recommended list becomes the one the triangle-set rule gives and nothing else changes |
| ModelBuilding.ModelBuilder.AddMeshObjectFromBuilder | src/io/builder.rs:502-517 | a build error is returned with nothing changed; a built object is stored with its id returned, and the builder's invariant is kept |
| ModelBuilding.ModelBuilder.AddMeshObject | src/io/builder.rs:486-496 | the closure gets a mesh object builder for the next id; its error, or the build error, is returned with nothing changed; otherwise the object is stored and the next id returned |
| ModelBuilding.ModelBuilder.AddComposedPartObjectFromBuilder | src/io/builder.rs:584-595 | a build error is returned with nothing changed; a built components object is stored with its id returned, and it refers only to earlier objects |
| ModelBuilding.ModelBuilder.AddComponentsObject | src/io/builder.rs:560-578 | the closure gets a components object builder for the next id that may refer to the objects so far; its error, or the build error, is returned with nothing changed; otherwise the object is stored and the next id returned |
| ModelBuilding.ModelBuilder.AddBuild | src/io/builder.rs:625-639 | a sub-model is refused with BuildOnlyAllowedInRootModel; under the Production extension a build without a uuid is refused; otherwise an empty build with the uuid replaces any earlier one |
| ModelBuilding.ModelBuilder.AddBuildItemAdvanced | src/io/builder.rs:688-704 | without a build, BuildItemNotSet; otherwise the item the closure configured is appended, or its error is returned with nothing changed |
| ModelBuilding.ModelBuilder.AddBuildItem | src/io/builder.rs:661-663 | without a build, BuildItemNotSet; under the Production extension, ItemUuidNotSet; otherwise an item for the object with nothing else set is appended |
| ModelBuilding.ModelBuilder.ProcessRequiredExtensions | src/io/builder.rs:770-824 | the required extensions completed for the Production extension and the lattices, as the specification function gives them |
| ModelBuilding.ModelBuilder.Build | src/io/builder.rs:722-753 | the model the specification gives for the builder's state, with the required and recommended attributes written in one enumeration of each set |
| ModelBuilding.ProductionOnlyRequiresP | src/io/builder.rs:770-853 | a model without beam lattices, with no required extensions of its own and the Production extension required, writes "p " as its required extensions |
| UsedNamespaces.NamespacesFor | threemf2/src/core/model.rs:91-107 | the core namespace comes first; the Production, beam lattice and triangle-set namespaces are listed exactly when the model uses them, in that fixed order; the boolean namespace never is |
| UsedNamespaces.NamespacesDistinct | threemf2/src/core/model.rs:91-107 | no namespace is listed twice |
| UsedNamespaces.PlainModelUsesCore | threemf2/src/core/model.rs:91-107 | a model using none of the extensions lists only the core namespace |
| UsedNamespaces.UsesProdNs | threemf2/src/core/model.rs:109-135 | true exactly when the build has a uuid, an item has a path or uuid, an object has a uuid or a component has a path or uuid |
| UsedNamespaces.UsesBeamLatticeNs | threemf2/src/core/model.rs:137-146 | true exactly when some object's mesh has a beam lattice |
| UsedNamespaces.UsesTrianglesetNs | threemf2/src/core/model.rs:148-158 | true exactly when some object's mesh has triangle sets |
| UsedNamespaces.UsedNamespacesOf | threemf2/src/core/model.rs:91-107 | the namespaces the model uses, as the specification function lists them |
| Query.Filter | threemf2/src/io/query.rs:597-610 | keeps exactly the elements that pass the test, and never more elements than there were |
| Query.FilterKeepsAll | threemf2/src/io/query.rs:597-610 | a test every element passes keeps the whole sequence |
| Query.FilterAppend | threemf2/src/io/query.rs:597-610 | filtering a concatenation filters each part and concatenates the results |
| Query.FirstMatch | threemf2/src/io/query.rs:261-267 | the index of the first element that passes the test, or nothing exactly when none does |
| Query.FlatMapAppend | threemf2/src/io/query.rs:1390-1400 | a flat map over a concatenation is the concatenation of the flat maps |
| Query.FlatMapMembers | threemf2/src/io/query.rs:1390-1400 | an element is in the flat map exactly when it is in the image of some input element |
| Query.IterModels | threemf2/src/io/query.rs:1379-1388 | the root model without a path first, then every sub-model once, with its path, in the map's order |
| Query.IterModelsFind | threemf2/src/io/query.rs:1379-1388 | every sub-model is visited after the root, under its own path |
| Query.IterModelsVisitsEachOnce | threemf2/src/io/query.rs:1379-1388 | every sub-model is visited under its own path, every path of the package is visited, and no path twice |
| Query.Tag | threemf2/src/io/query.rs:367-379 | every object, in order, paired with the same path |
| Query.TagAppend | threemf2/src/io/query.rs:367-379 | tagging a concatenation tags each part |
| Query.GetObjectFromModel | threemf2/src/io/query.rs:261-267 | the first object with the id, without a path, or nothing exactly when no object has the id |
| Query.GetObjectsFromModelRef | threemf2/src/io/query.rs:367-379 | every object of the model, in order, under the model's path |
| Query.GetObjectsFromModel | threemf2/src/io/query.rs:359-361 | every object of the model, in order, without a path |
| Query.GetObjectsRootFirst | threemf2/src/io/query.rs:321-323 | the package's objects start with the root model's objects, in order |
| Query.GetObjects | threemf2/src/io/query.rs:321-323 | the objects of every model, root first, each with its model's path; GetObjectsMembers and GetObjectsRootFirst give exactly what it lists and that the root's objects come first |
| Query.GetObjectsMembers | threemf2/src/io/query.rs:321-323 | an object is listed under no path exactly when the root model holds it, and under a path exactly when that sub-model holds it |
| Query.GetMeshObjectsFromModelRef | threemf2/src/io/query.rs:597-610 | exactly the model's mesh objects, under the model's path |
| Query.GetComponentsObjectsFromModelRef | threemf2/src/io/query.rs:1044-1057 | exactly the model's components objects, under the model's path |
| Query.MeshFilterKeepsOrder | threemf2/src/io/query.rs:597-610 | the mesh and components filters keep the order of the objects |
| Query.MeshFilterOnMeshesOnly | threemf2/src/io/query.rs:597-610 | a model of mesh objects only is listed whole by the mesh filter |
| Query.RefOf | threemf2/src/io/query.rs:448-461 | the typed ref carries the object's id, uuid, name, part number, thumbnail, pid and pindex, the model's path, and the object type, Model when absent |
| Query.MeshObjectRefOf | threemf2/src/io/query.rs:448-461 | the typed ref of a mesh object carries its mesh |
| Query.ComponentsObjectRefOf | threemf2/src/io/query.rs:661-674 | the typed ref of a components object carries its components |
| Query.MeshObjectRefs | threemf2/src/io/query.rs:549-553 | one mesh ref per object, in order |
| Query.ComponentsObjectRefs | threemf2/src/io/query.rs:993-997 | one components ref per object, in order |
| Query.AllMeshes | threemf2/src/io/query.rs:549-553 | everything the package-wide mesh filter collects has a mesh, so the refs can be built |
| Query.AllComponents | threemf2/src/io/query.rs:993-997 | everything the package-wide components filter collects has components, so the refs can be built |
| Query.GetMeshObjects | threemf2/src/io/query.rs:549-553 | one mesh reference per mesh object of every model, root first, in order (MeshObjectRefs); TypedRefsMembers gives exactly which objects are listed |
| Query.GetComponentsObjects | threemf2/src/io/query.rs:993-997 | one components reference per components object of every model, root first, in order (ComponentsObjectRefs); TypedRefsMembers gives exactly which objects are listed |
| Query.TypedRefsMembers | threemf2/src/io/query.rs:549-553 | the package-wide mesh and components filters list exactly the package's objects of that kind, under their model's path |
| Query.ComponentRefs | threemf2/src/io/query.rs:700-716 | one component ref per component, in order, with its id, transform and uuid; its own path when it has one, otherwise the path of the model holding the components object |
| Query.RootComponentsStayInRoot | threemf2/src/io/query.rs:700-716 | a root-model component without a path is looked for in the root model |
| Query.GetItemsFromModelRef | threemf2/src/io/query.rs:1164-1169 | every build item of the model, in order, under the model's path |
| Query.GetItemsFromModel | threemf2/src/io/query.rs:1154-1156 | every build item of the model, in order, without a path |
| Query.GetItems | threemf2/src/io/query.rs:1107-1109 | the build items of every model, root first, each with its model's path; GetItemsMembers and GetItemsRootFirst give exactly what it lists and that the root's items come first |
| Query.GetItemsMembers | threemf2/src/io/query.rs:1107-1109 | an item is listed under no path exactly when the root build holds it, and under a path exactly when that sub-model's build holds it |
| Query.GetItemsByObjectId | threemf2/src/io/query.rs:1214-1219 | exactly the package's items that build the object |
| Query.GetItemByUuid | threemf2/src/io/query.rs:1267-1275 | the first item, root first, whose uuid is the one asked for, or nothing exactly when none has it; items without a uuid never match |
| Query.GetItemsRootFirst | threemf2/src/io/query.rs:1107-1109 | the package's items start with the root build's items, in order |
| Query.ItemByUuidPrefersRoot | threemf2/src/io/query.rs:1267-1275 | a root item with the uuid is found before any sub-model item |
| LegacyQuery.GetBeamLatticeObjectsFromModelRef | src/io/query.rs:200-219 | exactly the model's objects whose mesh has a beam lattice, under the model's path |
| LegacyQuery.BeamLatticeFilterKeepsOrder | src/io/query.rs:200-219 | the beam-lattice filter keeps the order of the objects |
| LegacyQuery.BeamLatticeObjectsAreMeshObjects | src/io/query.rs:200-219 | every beam-lattice object is also listed by the mesh filter |
| LegacyQuery.BeamLatticeObjectRefOf | src/io/query.rs:162-184 | the typed ref of a lattice object carries the lattice and the object's attributes, with type Model when absent |
| LegacyQuery.BeamLatticeObjectRefs | src/io/query.rs:186-191 | one lattice ref per object, in order |
| LegacyQuery.AllBeamLattices | src/io/query.rs:186-191 | everything the package-wide lattice filter collects has a lattice, so the refs can be built |
| LegacyQuery.GetBeamLatticeObjects | src/io/query.rs:186-191 | one lattice reference per object with a beam lattice in every model, root first, in order (BeamLatticeObjectRefs); BeamLatticeObjectsMembers gives exactly which objects are listed |
| LegacyQuery.BeamLatticeObjectsMembers | src/io/query.rs:186-191 | the package-wide lattice filter lists exactly the package's objects with a lattice, under their model's path |
| PackageQuery.GetObjectRefFromModel | src/query/mod.rs:45-47 | the first object with the id, or nothing exactly when no object has it |
| PackageQuery.ObjectLookupsAgree | src/query/mod.rs:45-47 | the older and newer crates' object lookups find the same object |
| PackageQuery.GetObjectRefFromId | src/query/mod.rs:12-43 | the component's path picks the sub-model, else the parent model's path does, else the root is searched; a path with no sub-model gives nothing; the path searched is returned with the object |
| PackageQuery.FoundObjectIsInItsModel | src/query/mod.rs:12-43 | a found object has the id and is held by the model whose path is returned, the root when none is |
| PackageQuery.OwnPathWins | src/query/mod.rs:18-28 | a component's own path makes the parent model's path irrelevant |
| PackageQuery.ModelsOf | src/query/mod.rs:49-53 | the root model, then every sub-model in the map's order |
| PackageQuery.MeshObjectsOf | src/query/mod.rs:55-57 | exactly the model's mesh objects |
| PackageQuery.ComposedPartObjectsOf | src/query/mod.rs:67-75 | exactly the model's components objects |
| PackageQuery.BeamLatticeObjectsOf | src/query/mod.rs:85-95 | exactly the model's objects whose mesh has a beam lattice |
| PackageQuery.PackageMeshObjects | src/query/mod.rs:49-53 | the mesh objects of the root model, then of each sub-model in the map's order; RootObjectsFirst and PackageMeshObjectsMembers give its order and members |
| PackageQuery.PackageComposedPartObjects | src/query/mod.rs:59-65 | the components objects of the root model, then of each sub-model in the map's order; RootObjectsFirst and PackageComposedPartObjectsMembers give its order and members |
| PackageQuery.PackageBeamLatticeObjects | src/query/mod.rs:77-83 | the objects with a beam lattice of the root model, then of each sub-model in the map's order; RootObjectsFirst and PackageBeamLatticeObjectsMembers give its order and members |
| PackageQuery.FlatMapFirst | src/query/mod.rs:49-53 | the package-wide filters list the root model's results before the rest |
| PackageQuery.RootObjectsFirst | src/query/mod.rs:49-83 | the package-wide mesh, composed-part and lattice filters start with the root model's objects of that kind |
| PackageQuery.PackageMeshObjectsMembers | src/query/mod.rs:49-53 | an object is listed by the package-wide mesh filter exactly when it is a mesh object of the root or of some sub-model |
| PackageQuery.PackageComposedPartObjectsMembers | src/query/mod.rs:59-65 | an object is listed by the package-wide composed-part filter exactly when it is a components object of the root model or of some sub-model |
| PackageQuery.PackageBeamLatticeObjectsMembers | src/query/mod.rs:77-83 | an object is listed by the package-wide lattice filter exactly when its mesh has a beam lattice and the root model or some sub-model holds it |
| PackageQuery.PackageFilterMembers | src/query/mod.rs:49-83 | any package-wide filter lists an object exactly when its per-model filter keeps it in the root model or in some sub-model |

## Left out

- File and stream I/O, `ZipArchive::new` and its failure: the archive is given as a value.
- Writing the ZIP: the writer returns the list of entries it would store. Errors of the ZIP writer and the effect of duplicate entry names are not modelled.
- XML, UTF-8 and image coding are arbitrary functions passed in, not models of quick-xml, serde-roxmltree or the image crate.
- Reading an entry: `read_to_string` can fail only through UTF-8 decoding. `read_to_end` never fails.
- Zip.EnclosedName: the model refuses only a NUL character and a leading "/". The zip crate's rejection of ".." components that escape the archive root, and its Windows path handling, are not modelled.
- Utils.Extension: entry names are compared as plain strings. `std::path::Path` ignores a trailing "." component, so a file entry named "3D/_rels/x.model.rels/." has the extension "rels" in the source and is discovered, while the model gives it no extension.
- Zip.ByName: when several entries share a name, the model takes the first. Which one the zip crate returns is decided by that crate and is not modelled.
- Zip.ByName: the only lookup failure modelled is FileNotFound. The zip crate's other `by_name`/`by_index` failures (an encrypted entry, an unsupported compression method, a corrupt archive, an I/O error) are not modelled.
- Path-to-text conversion (`to_str`) never fails for the model's names, so the "Failed to read relationship file path" error of discovery is not reachable.
- `usize` is unbounded: overflow of object ids and indices is not modelled.
- Floating-point values are opaque bit patterns; transform text parsing and formatting are not modelled.
- `to_lowercase` is modelled as ASCII lowering. No non-ASCII character lowers to one of the ASCII names the parsers compare against.
- The two XML decoders disagree on an empty `<metadata/>` element. The memory-optimised one gives no value; the speed-optimised one gives Some(""). The difference comes from the foreign decoders, which are arbitrary functions here, so it is not modelled.
- src/io/relationship.rs is not part of this model; the older crate's relationships are modelled by the newer crate's definition.
- The `RelationshipProcessor` trait is modelled by its one implementation, `ThreemfPackageProcessor`.
- The "Found a folder" message prints the folder's enclosed name with Rust's Debug format. It is written as `Some("p")` or `None`; the escaping Debug applies to quotes and control characters inside the name is not modelled.
- The `from_reader_with_*` convenience constructors of both packages only fix the deserializer or the cache policy and are not modelled separately.
- The pull package's `RefCell` caches and `OnceCell` root model become fields that the (`modifies this`) methods assign. Borrow conflicts are not modelled.
- The two `CachePolicy` arms of the pull package run identical code and are modelled as one.
- The unpacked reader (`threemf_unpacked`) and thumbnail rendering are not part of this model.
- The builders are values rather than objects behind `&mut`. A closure is a function from the builder to the edited builder. The fields a closure cannot reach through the public setters (an object's id, its Production flag, a components builder's known ids) are restored after it. A component builder's object id is not one of them: `ComponentBuilder::new` is public, so the closure can change it.
- ModelBuilding.ModelBuilder.AddMeshObjectFromBuilder requires a builder made for the next id with the builder's Production flag, because the library's `MeshObjectBuilder::new` is private and only `add_mesh_object` calls it.
- ModelBuilding.ModelBuilder.AddComposedPartObjectFromBuilder requires a builder made for the next id with the builder's Production flag and the ids of the objects so far, because the library's constructor is private and only `add_components_object` calls it.
- PackageProcessor.ThreemfPackageProcessor.IntoThreemfPackage requires that a root model was stored; the source panics (`unwrap`) otherwise.
- BuilderParts.AddComponentAdvanced: the closure may replace the whole component builder, object id included, so the contract fixes only that one component is appended after the existing ones, and its object id only when the closure keeps it.
- BuilderParts.AddBeamAdvanced: the closure may replace the whole beam, so the contract fixes only that one beam is appended after the existing ones, not its vertex indices.
- BuilderParts.AddBallAdvanced: the closure may replace the whole ball, so the contract fixes only that one ball is appended after the existing ones, not its vertex index.
- ModelBuilding.GetExtensionsDefinition: the order of the prefixes is the `HashSet`'s, which the program never fixes; it is a ghost output enumerating the set.
