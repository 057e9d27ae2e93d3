/** The few Go standard-library string and path operations the core relies on. */
module Text {

  /** strings.HasSuffix */
  predicate HasSuffix(s: string, suffix: string) {
    |suffix| <= |s| && s[|s| - |suffix|..] == suffix
  }

  /** strings.TrimSuffix: removes one occurrence of `suffix` from the end of
      `s` when it is there, and otherwise returns `s` unchanged. */
  function TrimSuffix(s: string, suffix: string): (r: string)
    ensures HasSuffix(s, suffix) ==> r + suffix == s
    ensures !HasSuffix(s, suffix) ==> r == s
    ensures |r| <= |s|
  {
    if HasSuffix(s, suffix) then s[..|s| - |suffix|] else s
  }

  /** Trimming a single "/" takes off at most one slash: if the input ended
      in two slashes, the result still ends in one. */
  lemma TrimSlashRemovesAtMostOne(s: string)
    requires HasSuffix(s, "//")
    ensures HasSuffix(TrimSuffix(s, "/"), "/")
    ensures TrimSuffix(s, "/") + "/" == s
  {
    var r := TrimSuffix(s, "/");
    assert HasSuffix(s, "/") by { assert s[|s| - 1..] == [s[|s| - 1]] == "/"; }
    assert r == s[..|s| - 1];
    assert r[|r| - 1..] == [s[|s| - 2]] == "/";
  }

  /** filepath.Join of a directory and a plain file name, without the
      lexical clean-up of `..` and repeated separators. An empty directory
      is dropped, as filepath.Join drops empty elements. */
  function Join(dir: string, name: string): (p: string)
    ensures dir != "" ==> |p| == |dir| + 1 + |name| && p[..|dir|] == dir && p[|dir|] == '/' && p[|dir| + 1..] == name
    ensures dir == "" ==> p == name
  {
    if dir == "" then name else dir + "/" + name
  }

  /** A file name that filepath.Join leaves as it is: not empty, no
      separator, and neither "." nor "..". */
  predicate PlainName(name: string) {
    name != "" && '/' !in name && name != "." && name != ".."
  }

  /** Within one directory, different plain file names give different paths.
      (For names such as "a", "./a" and "a/" filepath.Join would give one
      path; `Join` does not clean, so the lemma is stated for plain names.) */
  lemma JoinInjective(dir: string, a: string, b: string)
    requires PlainName(a) && PlainName(b)
    requires Join(dir, a) == Join(dir, b)
    ensures a == b
  {
    if dir != "" {
      var p := Join(dir, a);
      assert a == p[|dir| + 1..];
      assert Join(dir, b)[|dir| + 1..] == b;
    }
  }
}
