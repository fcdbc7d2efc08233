/** Package relationships (ISO/IEC 29500-2, clause 9.3): each relationship
    names a target part and says what kind of part it is. The older crate's
    own relationship file is not part of this model; both crates are modelled
    by the newer crate's definition. */
module Relationships {
  import opened Wrappers
  import opened XmlScalar

  const RelationshipNs := "http://schemas.openxmlformats.org/package/2006/relationships"
  const ThumbnailTypeNs := "http://schemas.openxmlformats.org/package/2006/relationships/metadata/thumbnail"
  const ModelTypeNs := "http://schemas.microsoft.com/3dmanufacturing/2013/01/3dmodel"

  /** The relationship types the library acts on; any other type URI is kept verbatim. */
  datatype RelationshipType = Thumbnail | Model | Unknown(uri: string)

  datatype Relationship = Relationship(id: string, target: string, relationshipType: RelationshipType)

  /** One relationships part. */
  datatype Relationships = Relationships(relationships: seq<Relationship>)

  /** `From<String>`: exact comparison with the two known type URIs. */
  function FromString(s: string): (t: RelationshipType)
    ensures t == Thumbnail <==> s == ThumbnailTypeNs
    ensures t == Model <==> s == ModelTypeNs
    ensures t.Unknown? <==> s != ThumbnailTypeNs && s != ModelTypeNs
    ensures t.Unknown? ==> t.uri == s
  {
    if s == ThumbnailTypeNs then Thumbnail
    else if s == ModelTypeNs then Model
    else Unknown(s)
  }

  /** The text written for a relationship type. */
  function Serialize(t: RelationshipType): string {
    match t
    case Thumbnail => ThumbnailTypeNs
    case Model => ModelTypeNs
    case Unknown(uri) => uri
  }

  /** Parsing and then writing gives back every string. */
  lemma ParseThenSerialize(s: string)
    ensures Serialize(FromString(s)) == s
  {
  }

  /** Writing and then parsing gives back every type except an `Unknown`
      holding one of the two known URIs. */
  lemma SerializeThenParse(t: RelationshipType)
    ensures !(t.Unknown? && (t.uri == ThumbnailTypeNs || t.uri == ModelTypeNs)) ==> FromString(Serialize(t)) == t
  {
  }

  /** The memory-optimised decoder for the `Type` attribute. It matches the
      text itself rather than calling `FromString`; its postcondition shows the
      two classify alike. `taken` is what the decoder's `take_str` returned. */
  method Deserialize(into: Slot<RelationshipType>, field: string, taken: Result<Option<string>, XmlError>)
    returns (r: Result<(), XmlError>)
    modifies into
    ensures old(into.value).Some? ==> r == Err(DuplicateValue(field)) && into.value == old(into.value)
    ensures old(into.value).None? && taken.Err? ==> r == Err(taken.error) && into.value == None
    ensures old(into.value).None? && taken == Ok(None) ==>
              r == Err(MissingValue("No RelationshipType string found")) && into.value == None
    ensures old(into.value).None? && taken.Ok? && taken.value.Some? ==>
              r == Ok(()) && into.value == Some(FromString(taken.value.value))
  {
    if into.value.Some? {
      return Err(DuplicateValue(field));
    }
    if taken.Err? {
      return Err(taken.error);
    }
    match taken.value
    case None =>
      return Err(MissingValue("No RelationshipType string found"));
    case Some(value) =>
      if value == ThumbnailTypeNs {
        into.value := Some(Thumbnail);
      } else if value == ModelTypeNs {
        into.value := Some(Model);
      } else {
        into.value := Some(Unknown(value));
      }
      return Ok(());
  }
}
