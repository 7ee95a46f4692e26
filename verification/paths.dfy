/** Slash-separated paths, kept as their sequence of segments, and the file-name helpers
    the overlay applier uses (filepath.Dir, strings.HasSuffix, strings.TrimSuffix). */
module Paths {

  /** A path as its segments; no segment holds a '/'. The empty path is the working directory. */
  type Path = seq<string>

  /** The reserved suffix that marks a template file. */
  const TemplateSuffix: string := ".tmpl"

  /** filepath.Dir: everything but the last segment. */
  function Dir(p: Path): (r: Path)
    ensures |p| > 0 ==> r + [p[|p| - 1]] == p
    ensures |p| == 0 ==> r == []
  {
    if |p| == 0 then [] else p[..|p| - 1]
  }

  /** The non-empty prefixes of p: p itself and every directory above it. */
  function Prefixes(p: Path): (r: set<Path>)
    ensures forall q :: q in r <==> q != [] && q <= p
  {
    var r := set i | 1 <= i <= |p| :: p[..i];
    forall q | q != [] && q <= p
      ensures q in r
    {
      assert q == p[..|q|];
    }
    r
  }

  predicate HasSuffix(s: string, suffix: string)
  {
    |suffix| <= |s| && s[|s| - |suffix|..] == suffix
  }

  /** strings.TrimSuffix: drops one trailing occurrence of suffix, if there is one. */
  function TrimSuffix(s: string, suffix: string): (r: string)
    ensures HasSuffix(s, suffix) ==> r + suffix == s
    ensures !HasSuffix(s, suffix) ==> r == s
  {
    if HasSuffix(s, suffix) then s[..|s| - |suffix|] else s
  }

  /** True when the last segment of p carries the template marker. Because no segment holds
      a '/', this is the same test as strings.HasSuffix on the whole slash-joined path. */
  predicate IsTemplate(p: Path)
  {
    |p| > 0 && HasSuffix(p[|p| - 1], TemplateSuffix)
  }
}
