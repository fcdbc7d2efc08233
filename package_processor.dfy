/** The temporary processor the eager reader fills while it walks the
    relationships (`processor::ThreemfPackageProcessor`): a root model set at
    most once, and sub-models, thumbnails and unknown parts keyed by the
    relationship target they were read for. */
module PackageProcessor {
  import opened Wrappers
  import opened Zip
  import opened IoError
  import opened Codecs
  import CT = ContentTypes
  import Rel = Relationships
  import CoreTypes
  import Package

  /** The processor's fields as one value. */
  datatype ProcessorState = ProcessorState(
    root: Option<CoreTypes.Model>,
    subModels: map<string, CoreTypes.Model>,
    thumbnails: map<string, CoreTypes.Image>,
    unknownParts: map<string, seq<Byte>>,
    relationships: map<string, Rel.Relationships>,
    contentTypes: CT.ContentTypes)

  /** The state of a freshly created processor. */
  function Initial(contentTypes: CT.ContentTypes): ProcessorState {
    ProcessorState(None, map[], map[], map[], map[], contentTypes)
  }

  /** What `process_model` does with a decoded model: it becomes the root when
      flagged as such, and is filed under its target otherwise. */
  function StoreModel(s: ProcessorState, target: string, model: CoreTypes.Model, isRoot: bool): (r: ProcessorState)
    ensures isRoot ==> r.root == Some(model) && r.subModels == s.subModels
    ensures !isRoot ==> r.root == s.root && target in r.subModels && r.subModels[target] == model
    ensures !isRoot ==> forall k :: k != target ==> (k in r.subModels <==> k in s.subModels)
    ensures r.thumbnails == s.thumbnails && r.unknownParts == s.unknownParts
    ensures r.relationships == s.relationships && r.contentTypes == s.contentTypes
  {
    if isRoot then s.(root := Some(model)) else s.(subModels := s.subModels[target := model])
  }

  /** What `process_thumbnail` does with a decoded image. */
  function StoreThumbnail(s: ProcessorState, target: string, image: CoreTypes.Image): (r: ProcessorState)
    ensures target in r.thumbnails && r.thumbnails[target] == image
    ensures forall k :: k != target ==> (k in r.thumbnails <==> k in s.thumbnails)
    ensures r.(thumbnails := s.thumbnails) == s
  {
    s.(thumbnails := s.thumbnails[target := image])
  }

  /** What `process_unknown` does with the bytes of an unknown part; the
      content type it is handed is not kept. */
  function StoreUnknown(s: ProcessorState, target: string, data: seq<Byte>): (r: ProcessorState)
    ensures target in r.unknownParts && r.unknownParts[target] == data
    ensures forall k :: k != target ==> (k in r.unknownParts <==> k in s.unknownParts)
    ensures r.(unknownParts := s.unknownParts) == s
  {
    s.(unknownParts := s.unknownParts[target := data])
  }

  class ThreemfPackageProcessor {
    var root: Option<CoreTypes.Model>
    var subModels: map<string, CoreTypes.Model>
    var thumbnails: map<string, CoreTypes.Image>
    var unknownParts: map<string, seq<Byte>>
    var relationships: map<string, Rel.Relationships>
    var contentTypes: CT.ContentTypes

    function State(): ProcessorState
      reads this
    {
      ProcessorState(root, subModels, thumbnails, unknownParts, relationships, contentTypes)
    }

    /** `ThreemfPackageProcessor::new`: nothing read yet. */
    constructor (contentTypes: CT.ContentTypes)
      ensures State() == Initial(contentTypes)
    {
      root := None;
      subModels := map[];
      thumbnails := map[];
      unknownParts := map[];
      relationships := map[];
      this.contentTypes := contentTypes;
    }

    /** `set_relationships`: replaces the relationships table and nothing else. */
    method SetRelationships(relationships: map<string, Rel.Relationships>)
      modifies this
      ensures State() == old(State()).(relationships := relationships)
    {
      this.relationships := relationships;
    }

    /** `into_threemf_package`: the package holding everything collected; the
        source panics when no root model was set, so a root is required. */
    method IntoThreemfPackage() returns (p: Package.ThreemfPackage)
      requires root.Some?
      ensures p.root == root.value && p.subModels == subModels && p.thumbnails == thumbnails
      ensures p.unknownParts == unknownParts && p.relationships == relationships && p.contentTypes == contentTypes
    {
      p := Package.ThreemfPackage(root.value, subModels, thumbnails, unknownParts, relationships, contentTypes);
    }

    /** `process_model`: decode the part's text; on success store the model as
        the root or under its target, on failure change nothing. */
    method ProcessModel(target: string, entry: Entry, codec: Codec, d: XmlDeserializer, isRoot: bool)
      returns (r: Result<(), Error>)
      modifies this
      ensures DeserializeModel(codec, d, entry).Err? ==>
                r == Err(DeserializeModel(codec, d, entry).error) && State() == old(State())
      ensures DeserializeModel(codec, d, entry).Ok? ==>
                r == Ok(()) && State() == StoreModel(old(State()), target, DeserializeModel(codec, d, entry).value, isRoot)
    {
      var model := DeserializeModel(codec, d, entry);
      if model.Err? {
        return Err(model.error);
      }
      if isRoot {
        root := Some(model.value);
      } else {
        subModels := subModels[target := model.value];
      }
      r := Ok(());
    }

    /** `process_thumbnail`: decode the image; on success store it under its target. */
    method ProcessThumbnail(target: string, imageBytes: seq<Byte>, codec: Codec) returns (r: Result<(), Error>)
      modifies this
      ensures codec.image(imageBytes).Err? ==> r == Err(codec.image(imageBytes).error) && State() == old(State())
      ensures codec.image(imageBytes).Ok? ==>
                r == Ok(()) && State() == StoreThumbnail(old(State()), target, codec.image(imageBytes).value)
    {
      var image := codec.image(imageBytes);
      if image.Err? {
        return Err(image.error);
      }
      thumbnails := thumbnails[target := image.value];
      r := Ok(());
    }

    /** `process_unknown`: keep the bytes under the target; it never fails. */
    method ProcessUnknown(target: string, contentType: string, data: seq<Byte>) returns (r: Result<(), Error>)
      modifies this
      ensures r == Ok(()) && State() == StoreUnknown(old(State()), target, data)
    {
      unknownParts := unknownParts[target := data];
      r := Ok(());
    }
  }
}
