/** Choosing an image format from a thumbnail's file extension. */
module ThumbnailHandle {
  import opened Ascii

  datatype ImageFormat = Png | Jpeg | Unknown

  /** `ImageFormat::from_ext`: the extension is compared after lowering its case. */
  function FromExt(ext: string): (f: ImageFormat)
    ensures f == Png <==> Lower(ext) == "png"
    ensures f == Jpeg <==> Lower(ext) == "jpg" || Lower(ext) == "jpeg"
    ensures f == Unknown <==> Lower(ext) !in {"png", "jpg", "jpeg"}
  {
    match Lower(ext)
    case "png" => Png
    case "jpg" | "jpeg" => Jpeg
    case _ => Unknown
  }

  /** The format does not depend on letter case. */
  lemma {:induction false} FromExtCaseInsensitive(ext: string)
    ensures FromExt(ext) == FromExt(Lower(ext))
  {
    LowerIdempotent(ext);
  }

  /** Upper-case spellings are recognised. */
  lemma UpperCaseExtensions()
    ensures FromExt("PNG") == Png && FromExt("JPG") == Jpeg && FromExt("JPEG") == Jpeg
    ensures FromExt("tiff") == Unknown
  {
    assert Lower("PNG") == "png";
    assert Lower("JPG") == "jpg";
    assert Lower("JPEG") == "jpeg";
    assert Lower("tiff") == "tiff";
  }
}
