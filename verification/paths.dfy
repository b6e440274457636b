/** The POSIX path operations the script relies on: `path.join` of a directory and
    a file name, `path.basename(p, ext)`, and the `.json` to `.info` rewrite that
    finds a table's sidecar file. */
module Paths {

  predicate EndsWith(s: string, suffix: string) {
    |suffix| <= |s| && s[|s| - |suffix|..] == suffix
  }

  /** The directory part of a joined path: empty, or ending in exactly the
      separator the directory already had or one that is added. */
  function DirPrefix(dir: string): (d: string)
    ensures d == "" <==> dir == ""
    ensures d != "" ==> d[|d| - 1] == '/' && |dir| <= |d| && d[..|dir|] == dir
    ensures d != "" ==> d == dir || (dir[|dir| - 1] != '/' && d == dir + "/")
  {
    if dir == "" then ""
    else if dir[|dir| - 1] == '/' then dir
    else dir + "/"
  }

  /** `path.join(dir, name)` for a name that is one path segment. */
  function Join(dir: string, name: string): (p: string)
    ensures EndsWith(p, name)
    ensures p[..|p| - |name|] == DirPrefix(dir)
  {
    DirPrefix(dir) + name
  }

  /** Joining one directory with two names gives the same path only for the same name. */
  lemma JoinInjective(dir: string, a: string, b: string)
    requires Join(dir, a) == Join(dir, b)
    ensures a == b
  {
    var d := DirPrefix(dir);
    assert a == Join(dir, a)[|d|..];
    assert b == Join(dir, b)[|d|..];
  }

  /** Two different names joined to one directory give two different paths. */
  lemma JoinDistinct(dir: string, a: string, b: string)
    requires a != b
    ensures Join(dir, a) != Join(dir, b)
  {
    if Join(dir, a) == Join(dir, b) {
      JoinInjective(dir, a, b);
    }
  }

  /** A joined path ends with the extension of its name. */
  lemma JoinEndsWith(dir: string, stem: string, ext: string)
    ensures EndsWith(Join(dir, stem + ext), ext)
  {
    assert Join(dir, stem + ext) == (DirPrefix(dir) + stem) + ext;
  }

  /** The last path segment: the longest suffix without a separator. */
  function LastSegment(p: string): (r: string)
    ensures '/' !in r
    ensures EndsWith(p, r)
    ensures |r| < |p| ==> p[|p| - |r| - 1] == '/'
    decreases |p|
  {
    if p == "" || p[|p| - 1] == '/' then ""
    else
      var r := LastSegment(p[..|p| - 1]) + [p[|p| - 1]];
      assert p[..|p| - 1][|p| - |r|..] + [p[|p| - 1]] == p[|p| - |r|..];
      r
  }

  /** `s` without a trailing `ext`, unless that would leave nothing. */
  function StripSuffix(s: string, ext: string): (r: string)
    ensures r == s || (r != "" && s == r + ext)
    ensures |ext| < |s| && EndsWith(s, ext) ==> r + ext == s
  {
    if |ext| < |s| && EndsWith(s, ext) then s[..|s| - |ext|] else s
  }

  /** `path.basename(p, ext)` for a path without trailing separators. */
  function Basename(p: string, ext: string): (r: string)
    ensures '/' !in r
    ensures r == LastSegment(p) || (r != "" && r + ext == LastSegment(p))
    ensures |ext| < |LastSegment(p)| && EndsWith(LastSegment(p), ext) ==> r + ext == LastSegment(p)
  {
    var s := LastSegment(p);
    var r := StripSuffix(s, ext);
    assert forall i :: 0 <= i < |r| ==> r[i] == s[i];
    r
  }

  /** `p.replace(/\.json$/, '.info')`. */
  function InfoFile(p: string): (r: string)
    ensures |r| == |p|
    ensures EndsWith(p, ".json") ==> EndsWith(r, ".info") && r[..|p| - 5] == p[..|p| - 5]
    ensures !EndsWith(p, ".json") ==> r == p
  {
    if EndsWith(p, ".json") then p[..|p| - 5] + ".info" else p
  }

  /** A single-segment name is the last segment of its joined path. */
  lemma LastSegmentOfJoin(dir: string, name: string)
    requires '/' !in name
    ensures LastSegment(Join(dir, name)) == name
  {
  }

  /** The table name of `dir/<stem>.json` is `stem`. */
  lemma BasenameOfJoin(dir: string, stem: string)
    requires '/' !in stem && stem != ""
    ensures Basename(Join(dir, stem + ".json"), ".json") == stem
  {
    var name := stem + ".json";
    assert '/' !in name by {
      assert forall i :: 0 <= i < |name| ==> name[i] == if i < |stem| then stem[i] else ".json"[i - |stem|];
    }
    LastSegmentOfJoin(dir, name);
    assert name[..|name| - 5] == stem;
  }

  /** The sidecar of `dir/<stem>.json` is `dir/<stem>.info`. */
  lemma InfoFileOfJoin(dir: string, stem: string)
    ensures InfoFile(Join(dir, stem + ".json")) == Join(dir, stem + ".info")
  {
    var d := DirPrefix(dir);
    assert Join(dir, stem + ".json") == (d + stem) + ".json";
    assert Join(dir, stem + ".info") == (d + stem) + ".info";
  }
}
