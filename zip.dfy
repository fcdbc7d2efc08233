/** An opened ZIP archive, reduced to what the package code asks of it: the
    entries in central-directory order, looked up by index or by name. */
module Zip {
  import opened Wrappers

  type Byte = bv8

  /** A file with its (decompressed) contents, or a directory entry. */
  datatype Entry = File(bytes: seq<Byte>) | Dir

  datatype ZipFile = ZipFile(name: string, entry: Entry)

  datatype ZipArchive = ZipArchive(files: seq<ZipFile>)

  /** The one archive error the model raises: a name with no entry. */
  datatype ZipError = FileNotFound

  /** `ZipArchive::by_name`: the entry stored under `name`, or FileNotFound
      when there is none. The model takes the first entry with the name. */
  function ByName(zip: ZipArchive, name: string): (r: Result<Entry, ZipError>)
    ensures r.Ok? <==> FirstIndex(zip.files, name) < |zip.files|
    ensures r.Ok? ==> r.value == zip.files[FirstIndex(zip.files, name)].entry
    ensures r.Err? ==> r.error == FileNotFound
  {
    FindIn(zip.files, name)
  }

  /** The position of the first entry named `name`; `|files|` when there is none. */
  function FirstIndex(files: seq<ZipFile>, name: string): (k: nat)
    ensures k <= |files|
    ensures k < |files| ==> files[k].name == name
    decreases |files|
  {
    if |files| == 0 then 0
    else if files[0].name == name then 0
    else 1 + FirstIndex(files[1..], name)
  }

  /** No entry before the first one named `name` has that name. */
  lemma {:induction false} FirstIndexIsFirst(files: seq<ZipFile>, name: string, j: nat)
    requires j < FirstIndex(files, name)
    ensures files[j].name != name
    decreases |files|
  {
    if j > 0 {
      FirstIndexIsFirst(files[1..], name, j - 1);
    }
  }

  /** The search `ByName` performs, from the front of the archive. */
  function FindIn(files: seq<ZipFile>, name: string): (r: Result<Entry, ZipError>)
    ensures r.Ok? <==> FirstIndex(files, name) < |files|
    ensures r.Ok? ==> r.value == files[FirstIndex(files, name)].entry
    ensures r.Err? ==> r.error == FileNotFound
    decreases |files|
  {
    if |files| == 0 then Err(FileNotFound)
    else if files[0].name == name then Ok(files[0].entry)
    else FindIn(files[1..], name)
  }

  /** A lookup succeeds exactly when some entry has the name. */
  lemma ByNameFound(zip: ZipArchive, name: string)
    ensures ByName(zip, name).Ok? <==> exists i :: 0 <= i < |zip.files| && zip.files[i].name == name
  {
    if exists i :: 0 <= i < |zip.files| && zip.files[i].name == name {
      var i :| 0 <= i < |zip.files| && zip.files[i].name == name;
      if i < FirstIndex(zip.files, name) {
        FirstIndexIsFirst(zip.files, name, i);
      }
    }
  }

  /** `ZipFile::enclosed_name`: the entry's name as a relative path, refused
      when it holds a NUL character or starts at the root. */
  function EnclosedName(name: string): (r: Option<string>)
    ensures r.Some? <==> (forall j :: 0 <= j < |name| ==> name[j] != '\0') && !(|name| > 0 && name[0] == '/')
    ensures r.Some? ==> r.value == name
  {
    if '\0' in name || (|name| > 0 && name[0] == '/') then None else Some(name)
  }

  /** What reading an entry yields: a directory reads as no bytes. */
  function Contents(e: Entry): seq<Byte> {
    match e
    case File(bytes) => bytes
    case Dir => []
  }
}

/** The library's error type, one variant per failure source. */
module IoError {
  import Zip
  import XmlScalar

  datatype Error =
    | Io
    | Zip(zipError: Zip.ZipError)
    | ReadError(message: string)
    | ImageIOError(message: string)
    | WriteError(message: string)
    | InstantXmlError(xmlError: XmlScalar.XmlError)
    | ThumbnailError(message: string)
    | ResourceNotFound(message: string)
    | SerdeRoxmltreeError(message: string)
}

/** The foreign coders the package code calls: UTF-8 text decoding, the two
    XML decoding strategies, the `xmlns` attribute scanner, and image decoding.
    Each is an arbitrary (possibly failing) function, so everything proved about
    the package code holds whatever the coders do. */
module Codecs {
  import opened Wrappers
  import opened Zip
  import opened IoError
  import CoreTypes
  import ContentTypes
  import Relationships

  /** The two XML decoder implementations a package can be read with. */
  datatype XmlDeserializer = MemoryOptimized | SpeedOptimized

  datatype Codec = Codec(
    utf8: seq<Byte> -> Option<string>,
    contentTypes: (XmlDeserializer, string) -> Result<ContentTypes.ContentTypes, Error>,
    relationships: (XmlDeserializer, string) -> Result<Relationships.Relationships, Error>,
    model: (XmlDeserializer, string) -> Result<CoreTypes.Model, Error>,
    xmlnsAttributes: string -> seq<CoreTypes.XmlNamespace>,
    image: seq<Byte> -> Result<CoreTypes.Image, Error>)

  /** `read_to_string`: the entry's bytes as UTF-8 text, an I/O error otherwise. */
  function ReadToString(codec: Codec, e: Entry): (r: Result<string, Error>)
    ensures r.Ok? <==> codec.utf8(Contents(e)).Some?
    ensures r.Ok? ==> r.value == codec.utf8(Contents(e)).value
    ensures r.Err? ==> r.error == Io
  {
    match codec.utf8(Contents(e))
    case Some(s) => Ok(s)
    case None => Err(Io)
  }

  /** `XmlDeserializer::deserialize_model` of the older crate: read the text, then decode it. */
  function DeserializeModel(codec: Codec, d: XmlDeserializer, e: Entry): (r: Result<CoreTypes.Model, Error>)
    ensures codec.utf8(Contents(e)).None? ==> r == Err(Io)
    ensures codec.utf8(Contents(e)).Some? ==> r == codec.model(d, codec.utf8(Contents(e)).value)
  {
    var text :- ReadToString(codec, e);
    codec.model(d, text)
  }

  /** `XmlDeserializer::deserialize_model` of the newer crate: the decoded model
      together with the namespace declarations scanned from the same text. */
  function DeserializeModelWithNamespaces(codec: Codec, d: XmlDeserializer, e: Entry)
    : (r: Result<(CoreTypes.Model, seq<CoreTypes.XmlNamespace>), Error>)
    ensures codec.utf8(Contents(e)).None? ==> r == Err(Io)
    ensures codec.utf8(Contents(e)).Some? ==>
              var text := codec.utf8(Contents(e)).value;
              match codec.model(d, text)
              case Ok(m) => r == Ok((m, codec.xmlnsAttributes(text)))
              case Err(err) => r == Err(err)
  {
    var text :- ReadToString(codec, e);
    var namespaces := codec.xmlnsAttributes(text);
    var model :- codec.model(d, text);
    Ok((model, namespaces))
  }

  /** Both strategies of the newer crate yield the same model as the older
      crate's decoder, and the namespaces of the same text. */
  lemma DeserializeModelAgree(codec: Codec, d: XmlDeserializer, e: Entry)
    ensures DeserializeModelWithNamespaces(codec, d, e).Ok? <==> DeserializeModel(codec, d, e).Ok?
    ensures DeserializeModel(codec, d, e).Ok? ==>
              DeserializeModelWithNamespaces(codec, d, e).value.0 == DeserializeModel(codec, d, e).value &&
              DeserializeModelWithNamespaces(codec, d, e).value.1 == codec.xmlnsAttributes(codec.utf8(Contents(e)).value)
  {
  }
}
