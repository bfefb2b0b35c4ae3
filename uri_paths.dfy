/**
 * The path pieces of a document uri that `resource.basename`,
 * `resource.dirname` and `resource.extname` expose: the text after the last
 * `/`, the text before it, and the basename's suffix from its last `.`.
 */
module UriPaths {

  /** `suffix` is a tail of `s`. */
  predicate IsSuffix(suffix: string, s: string) {
    |suffix| <= |s| && s[|s| - |suffix|..] == suffix
  }

  /** The index of the last occurrence of `c` in `s`, or -1 when `c` does not occur. */
  function LastIndexOf(s: string, c: char): (r: int)
    ensures -1 <= r < |s|
    ensures r == -1 <==> c !in s
    ensures 0 <= r ==> s[r] == c && c !in s[r + 1..]
  {
    if s == [] then -1
    else if s[|s| - 1] == c then |s| - 1
    else
      assert s == s[..|s| - 1] + [s[|s| - 1]];
      LastIndexOf(s[..|s| - 1], c)
  }

  /** The last path segment: everything after the final `/` (the whole path when it has none). */
  function Basename(path: string): (r: string)
    ensures '/' !in r
    ensures IsSuffix(r, path)
    ensures |r| < |path| ==> path[|path| - |r| - 1] == '/'
  {
    path[LastIndexOf(path, '/') + 1..]
  }

  /** The path with its trailing `/<basename>` removed (empty when the path has no `/`). */
  function Dirname(path: string): (r: string)
    ensures '/' in path ==> r + "/" + Basename(path) == path
    ensures '/' !in path ==> r == "" && Basename(path) == path
  {
    var i := LastIndexOf(path, '/');
    if i < 0 then ""
    else
      SplitAround(path, i);
      path[..i]
  }

  /** Cutting a string around one of its characters and gluing it back gives the string. */
  lemma SplitAround(s: string, i: int)
    requires 0 <= i < |s|
    ensures s[..i] + [s[i]] + s[i + 1..] == s
  {
    assert s[..i] + [s[i]] + s[i + 1..] == s[..i] + s[i..];
  }

  /** The suffix of `s` from the last occurrence of `c`, `c` included; empty when `c` does not occur. */
  function SuffixFromLast(s: string, c: char): (r: string)
    ensures r == "" <==> c !in s
    ensures r != "" ==> r[0] == c && c !in r[1..]
    ensures IsSuffix(r, s)
  {
    var i := LastIndexOf(s, c);
    if i < 0 then ""
    else
      assert s[i..][1..] == s[i + 1..];
      s[i..]
  }

  /** The basename's suffix from its last `.`, dot included; empty when the basename has no `.`. */
  function Extname(path: string): (r: string)
    ensures r == "" <==> '.' !in Basename(path)
    ensures r != "" ==> r[0] == '.' && '.' !in r[1..]
    ensures IsSuffix(r, Basename(path))
  {
    SuffixFromLast(Basename(path), '.')
  }

  /** Taking the basename twice changes nothing. */
  lemma BasenameIdempotent(path: string)
    ensures Basename(Basename(path)) == Basename(path)
  {
    var b := Basename(path);
    assert LastIndexOf(b, '/') == -1;
  }

  /** Any slash-free last segment appended after a `/` is recovered exactly by Basename and Dirname. */
  lemma {:induction false} SplitAtLastSlash(dir: string, name: string)
    requires '/' !in name
    ensures Basename(dir + "/" + name) == name
    ensures Dirname(dir + "/" + name) == dir
  {
    var path := dir + "/" + name;
    var i := LastIndexOf(path, '/');
    assert path[|dir|] == '/';
    assert path[|dir| + 1..] == name;
    assert path[..|dir|] == dir;
  }
}
