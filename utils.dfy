/** Path helpers: stripping the leading slash of a relationship target, and the
    `std::path::Path` file-name and extension rules the relationship-file
    discovery relies on (for '/'-separated ZIP entry names). */
module Utils {
  import opened Wrappers

  /** `try_strip_leading_slash`: removes one leading '/', if there is one. */
  function TryStripLeadingSlash(target: string): (r: string)
    ensures |target| > 0 && target[0] == '/' ==> r == target[1..]
    ensures !(|target| > 0 && target[0] == '/') ==> r == target
  {
    if |target| > 0 && target[0] == '/' then target[1..] else target
  }

  /** The result is a suffix of the input and at most one character shorter. */
  lemma StripIsShortSuffix(target: string)
    ensures var r := TryStripLeadingSlash(target);
            |target| - 1 <= |r| <= |target| && r == target[|target| - |r|..]
  {
  }

  /** Only one slash goes: "//a" becomes "/a", so stripping is not idempotent. */
  lemma StripNotIdempotent()
    ensures TryStripLeadingSlash("//a") == "/a"
    ensures TryStripLeadingSlash(TryStripLeadingSlash("//a")) != TryStripLeadingSlash("//a")
  {
    assert "//a"[1..] == "/a";
    assert "/a"[1..] == "a";
  }

  /** Prefixing a relative name with "/" and stripping gives the name back; this is
      how discovered relationship files, stored as "/" + entry name, are read back. */
  lemma StripAfterSlash(name: string)
    ensures TryStripLeadingSlash("/" + name) == name
  {
    assert ("/" + name)[1..] == name;
  }

  /** Index of the last occurrence of `c` in `s`, if any. */
  function LastIndexOf(s: string, c: char): (r: Option<nat>)
    ensures r.Some? ==> r.value < |s| && s[r.value] == c &&
                        forall j :: r.value < j < |s| ==> s[j] != c
    ensures r.None? ==> forall j :: 0 <= j < |s| ==> s[j] != c
  {
    if |s| == 0 then None
    else if s[|s| - 1] == c then Some(|s| - 1)
    else LastIndexOf(s[..|s| - 1], c)
  }

  /** The occurrence with no later one is the last. */
  lemma LastIndexOfIs(s: string, c: char, k: nat)
    requires k < |s| && s[k] == c
    requires forall j :: k < j < |s| ==> s[j] != c
    ensures LastIndexOf(s, c) == Some(k)
  {
  }

  /** The last component of a '/'-separated name: the text after the last '/'. */
  function FileName(path: string): (r: string)
    ensures forall j :: 0 <= j < |r| ==> r[j] != '/'
    ensures |r| <= |path| && r == path[|path| - |r|..]
  {
    match LastIndexOf(path, '/')
    case None => path
    case Some(i) => path[i + 1..]
  }

  /** `Path::extension`: the text after the last '.' of the file name, unless the
      file name is "..", has no '.', or its only '.' is the first character. */
  function Extension(path: string): (r: Option<string>)
    ensures r.Some? ==> exists stem :: |stem| > 0 && FileName(path) == stem + "." + r.value
    ensures r.Some? ==> forall j :: 0 <= j < |r.value| ==> r.value[j] != '.' && r.value[j] != '/'
    ensures r.None? ==> FileName(path) == ".." ||
                        forall j :: 0 < j < |FileName(path)| ==> FileName(path)[j] != '.'
  {
    var name := FileName(path);
    if name == ".." then None
    else match LastIndexOf(name, '.')
      case None => None
      case Some(i) =>
        if i == 0 then None
        else
          assert name == name[..i] + "." + name[i + 1..];
          Some(name[i + 1..])
  }

  /** The root relationships name "_rels/.rels" has no extension of its own: its
      file name starts with its only '.'. */
  lemma RootRelsHasNoExtension()
    ensures Extension("_rels/.rels") == None
  {
    LastIndexOfIs("_rels/.rels", '/', 5);
    assert FileName("_rels/.rels") == ".rels";
    LastIndexOfIs(".rels", '.', 0);
  }

  lemma ModelRelsExtension()
    ensures Extension("3D/_rels/3dmodel.model.rels") == Some("rels")
  {
    LastIndexOfIs("3D/_rels/3dmodel.model.rels", '/', 8);
    assert FileName("3D/_rels/3dmodel.model.rels") == "3dmodel.model.rels";
    LastIndexOfIs("3dmodel.model.rels", '.', 13);
    assert "3dmodel.model.rels"[14..] == "rels";
  }
}
