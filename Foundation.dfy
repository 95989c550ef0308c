/** The few Foundation values the export path relies on: `NSError`, file URLs and the
    removal of a path extension. */
module Foundation {
  import opened Wrappers

  type Bytes = seq<bv8>

  /** An `NSError` as far as the model observes it: its domain, its code and the value of
      `NSLocalizedDescriptionKey` (what `localizedDescription` returns). */
  datatype NSError = NSError(domain: string, code: int, localizedDescription: string)

  /** A file URL: the directory components and the last path component. */
  datatype URL = FileURL(directory: seq<string>, lastPathComponent: string)

  /** Position of the last occurrence of `c` in `s`, if any. */
  function LastIndexOf(s: string, c: char): (r: Option<nat>)
    ensures r.Some? ==> r.value < |s| && s[r.value] == c
    ensures r.Some? ==> forall j :: r.value < j < |s| ==> s[j] != c
    ensures r.None? ==> forall j :: 0 <= j < |s| ==> s[j] != c
  {
    if |s| == 0 then None
    else if s[|s| - 1] == c then Some(|s| - 1)
    else LastIndexOf(s[..|s| - 1], c)
  }

  /** A path component without its extension: the text before the last '.', where a
      leading '.' (a hidden file name) does not start an extension. */
  function DeletingPathExtension(name: string): (stem: string)
    ensures |stem| <= |name| && stem == name[..|stem|]
    ensures stem != name ==> 0 < |stem| && name[|stem|] == '.'
    ensures stem != name ==> forall j :: |stem| < j < |name| ==> name[j] != '.'
  {
    match LastIndexOf(name, '.')
    case Some(i) => if 0 < i then name[..i] else name
    case None => name
  }

  /** `url.deletingPathExtension().lastPathComponent` */
  function FilenameWithoutExtension(url: URL): string {
    DeletingPathExtension(url.lastPathComponent)
  }

  /** Removing the extension of `stem.ext` gives back `stem`. */
  lemma {:induction false} DeletingAppendedExtension(stem: string, ext: string)
    requires stem != "" && '.' !in ext
    ensures DeletingPathExtension(stem + "." + ext) == stem
  {
    var name := stem + "." + ext;
    assert name[|stem|] == '.';
    forall j | |stem| < j < |name| ensures name[j] != '.' {
      assert name[j] == ext[j - |stem| - 1];
    }
    assert name[..|stem|] == stem;
  }
}
