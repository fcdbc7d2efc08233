/** The `[Content_Types].xml` part of an Open Packaging Conventions package
    (ISO/IEC 29500-2, clause 10.1.2): a list of defaults mapping a file
    extension to a content type. */
module ContentTypes {
  import opened Wrappers
  import opened XmlScalar

  const RelationshipNs := "application/vnd.openxmlformats-package.relationships+xml"
  const ModelNs := "application/vnd.ms-package.3dmanufacturing-3dmodel+xml"
  const PngNs := "image/png"
  const JpegNs := "image/jpeg"
  const ContentTypesNs := "http://schemas.openxmlformats.org/package/2006/content-types"

  /** The archive entry holding the content types. */
  const PartName := "[Content_Types].xml"

  /** The content types the library knows; any other MIME string is kept verbatim. */
  datatype DefaultContentType = Relationship | Model | ImagePng | ImageJpeg | Unknown(mime: string)

  datatype DefaultContentTypes = DefaultContentTypes(extension: string, contentType: DefaultContentType)

  datatype ContentTypes = ContentTypes(defaults: seq<DefaultContentTypes>)

  /** The four MIME strings with a variant of their own. */
  predicate IsKnownMime(s: string) {
    s == RelationshipNs || s == ModelNs || s == PngNs || s == JpegNs
  }

  /** `From<String>`: exact, case-sensitive comparison with the four known strings. */
  function FromString(s: string): (t: DefaultContentType)
    ensures t == Relationship <==> s == RelationshipNs
    ensures t == Model <==> s == ModelNs
    ensures t == ImagePng <==> s == PngNs
    ensures t == ImageJpeg <==> s == JpegNs
    ensures t.Unknown? <==> !IsKnownMime(s)
    ensures t.Unknown? ==> t.mime == s
  {
    if s == RelationshipNs then Relationship
    else if s == ModelNs then Model
    else if s == PngNs then ImagePng
    else if s == JpegNs then ImageJpeg
    else Unknown(s)
  }

  /** The text written for a content type. */
  function Serialize(t: DefaultContentType): string {
    match t
    case Relationship => RelationshipNs
    case Model => ModelNs
    case ImagePng => PngNs
    case ImageJpeg => JpegNs
    case Unknown(mime) => mime
  }

  /** Parsing and then writing gives back every string. */
  lemma ParseThenSerialize(s: string)
    ensures Serialize(FromString(s)) == s
  {
  }

  /** Writing and then parsing gives back every content type except an
      `Unknown` that holds one of the known strings, which comes back as that
      string's own variant. */
  lemma SerializeThenParse(t: DefaultContentType)
    ensures !(t.Unknown? && IsKnownMime(t.mime)) ==> FromString(Serialize(t)) == t
    ensures t.Unknown? && IsKnownMime(t.mime) ==> !FromString(Serialize(t)).Unknown?
  {
  }

  /** The memory-optimised decoder for a content-type attribute: it refuses a
      second value, reports absent text, and otherwise stores the parsed type.
      `taken` is what the decoder's `take_str` returned. */
  method Deserialize(into: Slot<DefaultContentType>, field: string, taken: Result<Option<string>, XmlError>)
    returns (r: Result<(), XmlError>)
    modifies into
    ensures old(into.value).Some? ==> r == Err(DuplicateValue(field)) && into.value == old(into.value)
    ensures old(into.value).None? && taken.Err? ==> r == Err(taken.error) && into.value == None
    ensures old(into.value).None? && taken == Ok(None) ==>
              r == Err(MissingValue("No ContentType string found")) && into.value == None
    ensures old(into.value).None? && taken.Ok? && taken.value.Some? ==>
              r == Ok(()) && into.value == Some(FromString(taken.value.value))
  {
    if into.value.Some? {
      return Err(DuplicateValue(field));
    }
    if taken.Err? {
      return Err(taken.error);
    }
    match taken.value
    case None =>
      return Err(MissingValue("No ContentType string found"));
    case Some(value) =>
      into.value := Some(FromString(value));
      return Ok(());
  }
}
