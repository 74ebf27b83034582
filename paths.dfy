/** File-system paths as the dashboard servers build them: `dir / relative`
    followed by `resolve()`, and `relative_to` as a containment test. A
    path is its list of segments below the root. */
module Paths {
  import opened Text

  type Path = seq<string>

  /** Resolving the segments of a relative path one at a time: "" and "."
      stay in place, ".." goes up one level (never above the root), any
      other segment goes down into it. */
  function Normalise(cur: Path, segs: seq<string>): Path
    decreases |segs|
  {
    if segs == [] then cur
    else if segs[0] == "" || segs[0] == "." then Normalise(cur, segs[1..])
    else if segs[0] == ".." then Normalise(if cur == [] then [] else cur[..|cur| - 1], segs[1..])
    else Normalise(cur + [segs[0]], segs[1..])
  }

  /** `(dir / rel).resolve()` for a resolved `dir`: an absolute `rel`
      replaces `dir` altogether. Symbolic links are not followed. */
  function Resolve(dir: Path, rel: string): Path
  {
    if rel != [] && rel[0] == '/' then Normalise([], Split(rel, '/'))
    else Normalise(dir, Split(rel, '/'))
  }

  /** `p.relative_to(dir)` succeeds. */
  predicate Within(dir: Path, p: Path)
  {
    |dir| <= |p| && p[..|dir|] == dir
  }

  /** A segment that moves down into a directory. */
  predicate Plain(seg: string)
  {
    seg != "" && seg != "." && seg != ".." && Free(seg, '/')
  }

  /** A relative path that never goes up: not absolute, no ".." segment. */
  predicate Descends(rel: string)
  {
    (rel == [] || rel[0] != '/') &&
    forall i :: 0 <= i < |Split(rel, '/')| ==> Split(rel, '/')[i] != ".."
  }

  /** Segments without "..": resolving never leaves the starting directory. */
  lemma {:induction false} NormaliseStaysWithin(cur: Path, segs: seq<string>)
    requires forall i :: 0 <= i < |segs| ==> segs[i] != ".."
    ensures Within(cur, Normalise(cur, segs))
    decreases |segs|
  {
    if segs != [] {
      if segs[0] == "" || segs[0] == "." {
        NormaliseStaysWithin(cur, segs[1..]);
      } else {
        NormaliseStaysWithin(cur + [segs[0]], segs[1..]);
        var p := Normalise(cur + [segs[0]], segs[1..]);
        assert p[..|cur|] == p[..|cur| + 1][..|cur|];
      }
    }
  }

  /** "../name" from a non-root directory resolves to a sibling of that
      directory, which lies outside it unless it is the directory itself. */
  lemma ParentEscapes(dir: Path, name: string)
    requires dir != [] && Plain(name) && name != dir[|dir| - 1]
    ensures Resolve(dir, "../" + name) == dir[..|dir| - 1] + [name]
    ensures !Within(dir, Resolve(dir, "../" + name))
  {
    SplitFree(name, '/');
    SplitAtSeparator("..", '/', name);
    assert "../" + name == ".." + ['/'] + name;
    assert Split("../" + name, '/') == ["..", name];
    assert ("../" + name)[0] == '.';
    var up := dir[..|dir| - 1];
    assert ["..", name][1..] == [name];
    assert Normalise(dir, ["..", name]) == Normalise(up, [name]);
    assert [name][1..] == [];
    assert Normalise(up, [name]) == Normalise(up + [name], []);
    assert (up + [name])[|dir| - 1] != dir[|dir| - 1];
  }
}
