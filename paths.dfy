/** `java.io.File(parent, child)` path resolution with '/' as separator. */
module Paths {
  import opened Wrappers
  import opened Strings

  /** A `java.io.File` as the model sees it: its absolute and canonical path
      strings and what the file system reports about it. Resolving links and
      ".." belongs to the file system, so both paths are given. */
  datatype FileRef = FileRef(absolutePath: string, canonicalPath: string, present: bool, isFile: bool)

  /** The path of `File(parent, child)`: an empty child gives the parent, a
      child starting with '/' is appended as is, any other child after a
      '/'; an empty parent resolves against the root. */
  function PathJoin(parent: string, child: string): (r: string)
    ensures child == "" ==> r == parent
    ensures child != "" && child[0] != '/' && parent != "" && parent != "/" ==> r == parent + "/" + child
    ensures child != "" ==> StartsWith(r, if parent == "" then "/" else parent)
    ensures child != "" ==> EndsWith(r, child)
  {
    if child == "" then parent
    else if parent == "" || parent == "/" then
      if child[0] == '/' then child else "/" + child
    else if child[0] == '/' then parent + child
    else parent + "/" + child
  }

  /** `File(null as File?, child)`: with no parent the path is the child. */
  function PathJoinOpt(parent: Option<string>, child: string): (r: string)
    ensures parent.None? ==> r == child
    ensures parent.Some? ==> r == PathJoin(parent.value, child)
  {
    match parent
    case None => child
    case Some(p) => PathJoin(p, child)
  }

  /** A joined path ends with every suffix of its child. */
  lemma PathJoinOptEndsWith(parent: Option<string>, a: string, b: string)
    requires b != ""
    ensures EndsWith(PathJoinOpt(parent, a + b), b)
  {
    var c := a + b;
    var r := PathJoinOpt(parent, c);
    assert c[|c| - |c|..] == c;
    assert EndsWith(r, c);
    assert r[|r| - |b|..] == r[|r| - |c|..][|a|..];
    assert c[|a|..] == b;
  }
}
