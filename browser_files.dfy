/** The `File` objects a file input delivers, and the extension rule both
    upload handlers use: `name.split('.').pop().toLowerCase()`. */
module BrowserFiles {
  import opened JsText

  /** A browser `File`: `name`, `size` in bytes and MIME `type`. */
  datatype BrowserFile = BrowserFile(name: String, size: nat, mimeType: String)

  /** The lowercased text after the last `.`, or the whole name lowercased. */
  function Extension(name: String): String
  {
    ToLower(LastSegment(name, '.'))
  }

  /** The extension is the lowercased dot-free suffix of the name that
      follows its last dot; a name without a dot is its own extension. */
  lemma ExtensionSpec(name: String)
    ensures var seg := LastSegment(name, '.');
      Extension(name) == ToLower(seg) && '.' !in seg
      && |seg| <= |name| && name[|name| - |seg|..] == seg
      && ('.' !in name ==> seg == name)
      && ('.' in name ==> |seg| < |name| && name[|name| - |seg| - 1] == '.')
  {
    LastSegmentSpec(name, '.');
  }

  /** Only what follows the last dot matters. */
  lemma ExtensionAfterLastDot(stem: String, ext: String)
    requires '.' !in ext
    ensures Extension(stem + "." + ext) == ToLower(ext)
  {
    LastSegmentOfAppend(stem, ext, '.');
  }
}
