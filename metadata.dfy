/** The `preserve` attribute of a metadata entry. */
module MetadataCodec {
  import opened Wrappers
  import opened XmlScalar
  import opened CoreTypes

  /** Rust's `bool::from_str`: exactly "true" or "false". */
  function ParseBool(s: string): (r: Option<bool>)
    ensures r == Some(true) <==> s == "true"
    ensures r == Some(false) <==> s == "false"
  {
    if s == "true" then Some(true) else if s == "false" then Some(false) else None
  }

  /** The memory-optimised decoder for `Preserve`: a second value is refused,
      absent text is reported, and text other than "true"/"false" is reported as a
      missing value, leaving the slot empty. */
  method DeserializePreserve(into: Slot<Preserve>, field: string, taken: Result<Option<string>, XmlError>)
    returns (r: Result<(), XmlError>)
    modifies into
    ensures old(into.value).Some? ==> r == Err(DuplicateValue(field)) && into.value == old(into.value)
    ensures old(into.value).None? && taken.Err? ==> r == Err(taken.error) && into.value == None
    ensures old(into.value).None? && taken == Ok(None) ==>
              r == Err(MissingValue("No Must Preserve value found")) && into.value == None
    ensures old(into.value).None? && taken == Ok(Some("true")) ==> r == Ok(()) && into.value == Some(Preserve(true))
    ensures old(into.value).None? && taken == Ok(Some("false")) ==> r == Ok(()) && into.value == Some(Preserve(false))
    ensures old(into.value).None? && taken.Ok? && taken.value.Some? && taken.value.value !in {"true", "false"} ==>
              r == Err(MissingValue("Not a valid boolean value")) && into.value == None
  {
    if into.value.Some? {
      return Err(DuplicateValue(field));
    }
    if taken.Err? {
      return Err(taken.error);
    }
    match taken.value
    case None =>
      return Err(MissingValue("No Must Preserve value found"));
    case Some(value) =>
      match ParseBool(value)
      case Some(mustPreserve) =>
        into.value := Some(Preserve(mustPreserve));
        return Ok(());
      case None =>
        return Err(MissingValue("Not a valid boolean value"));
  }
}
