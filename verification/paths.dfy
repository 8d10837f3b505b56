/**
 * Paths and file names, as the traversal uses them.
 *
 * A resolved absolute path is the sequence of its components below the
 * filesystem root (`[]` is the root itself). Node's `path.resolve`,
 * `path.dirname`, `path.extname` and `path.basename` are modelled for the
 * only arguments the traversal gives them: a resolved directory joined with
 * one entry name, and entry names that hold no separator.
 */
module Paths {

  type Path = seq<string>

  /** `resolve(dir, name)` for a resolved `dir` and a name without separators. */
  function Join(dir: Path, name: string): (p: Path)
    ensures |p| == |dir| + 1 && p[..|dir|] == dir && p[|dir|] == name
    ensures DirName(p) == dir
  {
    dir + [name]
  }

  /** `dirname`: the parent of a path; the root is its own parent. */
  function DirName(p: Path): (d: Path)
    ensures p == [] ==> d == []
    ensures p != [] ==> |d| == |p| - 1 && d + [p[|p| - 1]] == p
  {
    if p == [] then [] else p[..|p| - 1]
  }

  /** `q` is `root` or lies below it. */
  predicate Below(root: Path, q: Path)
  {
    |root| <= |q| && q[..|root|] == root
  }

  /** The string form of a path, "/a/b/c", against which exclusion patterns are tested. */
  function Render(p: Path): (s: string)
    ensures p == [] <==> s == ""
  {
    if p == [] then "" else Render(p[..|p| - 1]) + "/" + p[|p| - 1]
  }

  /**
   * The path of an entry renders as the path of its directory, a '/', and the
   * entry's name: the rendered directory is a prefix of the rendered entry.
   */
  lemma RenderExtends(dir: Path, name: string)
    ensures var s, d := Render(Join(dir, name)), Render(dir);
      |s| == |d| + 1 + |name| && s[..|d|] == d && s[|d|] == '/' && s[|d| + 1..] == name
  {
    assert Join(dir, name)[..|dir|] == dir;
  }

  /** The index of the last '.' in `s`, or -1 when there is none. */
  function LastDot(s: string): (k: int)
    ensures -1 <= k < |s|
    ensures k >= 0 ==> s[k] == '.'
    ensures forall j :: k < j < |s| ==> s[j] != '.'
  {
    if s == [] then -1
    else if s[|s| - 1] == '.' then |s| - 1
    else LastDot(s[..|s| - 1])
  }

  /**
   * `extname` of a name without separators: from the last '.' to the end,
   * unless that dot is the first character (".bashrc") or the name is "..".
   */
  function ExtName(name: string): (ext: string)
    ensures |ext| <= |name| && name[|name| - |ext|..] == ext
    ensures ext != "" ==> |ext| < |name| && ext[0] == '.' && forall j :: 0 < j < |ext| ==> ext[j] != '.'
    ensures ext == "" ==> name == ".." || forall j :: 0 < j < |name| ==> name[j] != '.'
    ensures name == ".." ==> ext == ""
  {
    var k := LastDot(name);
    if k <= 0 || name == ".." then "" else name[k..]
  }

  /**
   * `basename(name, suffix)` of a name without separators: the name with
   * `suffix` cut off its end when it ends with it; "" when the two are equal;
   * the whole name when `suffix` is empty, longer or not a suffix.
   */
  function BaseName(name: string, suffix: string): (title: string)
    ensures suffix != "" && |suffix| <= |name| && name[|name| - |suffix|..] == suffix ==> title + suffix == name
    ensures !(suffix != "" && |suffix| <= |name| && name[|name| - |suffix|..] == suffix) ==> title == name
  {
    if suffix == "" || |suffix| > |name| then name
    else if suffix == name then ""
    else if name[|name| - |suffix|..] == suffix then name[..|name| - |suffix|]
    else name
  }

  /** `title` is the name with its extension stripped: `title + extension == name`. */
  lemma TitleStripsExtension(name: string)
    ensures BaseName(name, ExtName(name)) + ExtName(name) == name
    ensures ExtName(name) == "" ==> BaseName(name, ExtName(name)) == name
  {
    var ext := ExtName(name);
    if ext != "" {
      assert name[..|name| - |ext|] + name[|name| - |ext|..] == name;
    }
  }
}
