/** Paths as strings and the last component of a path (`std::filesystem::path::filename`). */
module FsPaths {

  type Path = string

  /** The directory separator of the POSIX generic path format. */
  predicate IsSeparator(c: char) {
    c == '/'
  }

  predicate NoSeparator(s: string) {
    forall k :: 0 <= k < |s| ==> !IsSeparator(s[k])
  }

  /** `s` is a suffix of `p` that stops at a separator or at the start of `p`. */
  predicate IsLastComponent(s: string, p: Path) {
    |s| <= |p| && s == p[|p| - |s|..] && NoSeparator(s) &&
    (|s| < |p| ==> IsSeparator(p[|p| - |s| - 1]))
  }

  /**
   * The file name of a path: what follows its last separator, which is empty
   * when the path is empty or ends in a separator.
   */
  function Filename(p: Path): (name: string)
    ensures IsLastComponent(name, p)
    decreases |p|
  {
    if p == [] || IsSeparator(p[|p| - 1]) then []
    else Filename(p[..|p| - 1]) + [p[|p| - 1]]
  }

  /** The last component is unique: `Filename` is the only suffix with those properties. */
  lemma LastComponentUnique(s: string, p: Path)
    requires IsLastComponent(s, p)
    ensures s == Filename(p)
  {
    var name := Filename(p);
    assert |s| == |name|;
  }

  /** The name of an entry joined to its directory is the entry's own name. */
  lemma FilenameOfJoin(dir: Path, name: string)
    requires NoSeparator(name)
    ensures Filename(dir + "/" + name) == name
  {
    var p := dir + "/" + name;
    assert p[|p| - |name|..] == name;
    assert p[|p| - |name| - 1] == '/';
    LastComponentUnique(name, p);
  }
}
