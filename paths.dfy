/**
 * File-system paths as the launcher builds and tests them: `Path.Combine`
 * for Windows, and the file system itself as the set of paths that exist.
 */
module Paths {
  import opened Text
  import opened Wrappers

  /** The files that exist: `File.Exists(p)` is `p in files`. */
  type FileSet = set<string>

  predicate IsSeparator(c: char) {
    c == '\\' || c == '/'
  }

  /** `Path.IsPathRooted` on Windows: a leading separator or a drive letter. */
  predicate IsRooted(p: string) {
    (|p| > 0 && IsSeparator(p[0])) || (|p| >= 2 && p[1] == ':')
  }

  /**
   * `Path.Combine(dir, name)`: an empty part yields the other, a rooted
   * `name` replaces `dir`, and otherwise one backslash joins them unless a
   * separator already stands at the joint.
   */
  function Combine(dir: string, name: string): (p: string)
    ensures |name| > 0 && |dir| > 0 ==> EndsWith(p, name)
    ensures |dir| > 0 && !IsRooted(name) ==> |dir| <= |p| && p[..|dir|] == dir
    ensures |dir| > 0 && |name| > 0 && !IsRooted(name) ==> |p| <= |dir| + 1 + |name|
  {
    if |dir| == 0 then name
    else if |name| == 0 then dir
    else if IsRooted(name) then name
    else if IsSeparator(dir[|dir| - 1]) || IsSeparator(name[0]) then dir + name
    else dir + "\\" + name
  }

  /** The first of `paths` that exists, or `|paths|`. */
  function FirstExisting(paths: seq<string>, files: FileSet): (k: nat)
    ensures k <= |paths|
    ensures forall j :: 0 <= j < k ==> paths[j] !in files
    ensures k < |paths| ==> paths[k] in files
    decreases |paths|
  {
    if paths == [] then 0
    else if paths[0] in files then 0
    else 1 + FirstExisting(paths[1..], files)
  }

  /** The configured client path is unusable: empty, or no such file. */
  predicate Unresolved(path: string, files: FileSet) {
    |path| == 0 || path !in files
  }
}
