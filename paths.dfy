/** The two `path` operations the modelled code uses, over an abstract separator. */
module Paths {
  import opened Wrappers

  /** The separator `path.join` inserts (the platform's own is abstracted to one character). */
  const Separator: char := '/'

  /** `path.join(dir, name)` for a directory and a plain file name. */
  function PathJoin(dir: string, name: string): string
  {
    if dir == [] then name
    else if dir[|dir| - 1] == Separator then dir + name
    else dir + [Separator] + name
  }

  /** Joining to one directory keeps distinct names distinct. */
  lemma PathJoinInjective(dir: string, a: string, b: string)
    requires PathJoin(dir, a) == PathJoin(dir, b)
    ensures a == b
  {
    var pre := if dir == [] then "" else if dir[|dir| - 1] == Separator then dir else dir + [Separator];
    assert PathJoin(dir, a) == pre + a && PathJoin(dir, b) == pre + b;
    assert a == (pre + a)[|pre|..] && b == (pre + b)[|pre|..];
  }

  /** The index of the last occurrence of `c` in `s`. */
  function LastIndexOf(s: string, c: char): (r: Option<nat>)
    ensures r.Some? ==> r.value < |s| && s[r.value] == c && forall j :: r.value < j < |s| ==> s[j] != c
    ensures r.None? ==> c !in s
  {
    if |s| == 0 then None
    else if s[|s| - 1] == c then Some(|s| - 1)
    else LastIndexOf(s[..|s| - 1], c)
  }

  /** The `name` and `ext` parts of `path.parse` for a base name. */
  datatype ParsedName = ParsedName(name: string, ext: string)

  /** `path.parse(fileName)`: the extension runs from the last dot to the end, unless that dot
      is the first character or the name is `..`. */
  function ParseFileName(fileName: string): (r: ParsedName)
    ensures r.name + r.ext == fileName
    ensures r.ext != [] ==> r.ext[0] == '.' && '.' !in r.ext[1..] && r.name != [] && fileName != ".."
    ensures r.ext == [] ==> fileName == ".." || forall j :: 0 < j < |fileName| ==> fileName[j] != '.'
  {
    if fileName == ".." then ParsedName(fileName, [])
    else match LastIndexOf(fileName, '.')
    case Some(i) =>
      if i > 0 then ParsedName(fileName[..i], fileName[i..])
      else ParsedName(fileName, [])
    case None => ParsedName(fileName, [])
  }
}
