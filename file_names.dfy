/** The parts of a file path the configuration loaders use, as
    `pathlib.PurePosixPath` computes them: the final component (`name`),
    its last extension (`suffix`) and the name without it (`stem`). */
module FileNames {
  import opened Text

  /** The components `pathlib` keeps: empty segments (from repeated or
      trailing slashes) and "." segments are dropped. */
  function Components(segs: seq<string>): (r: seq<string>)
    ensures forall i :: 0 <= i < |r| ==> r[i] != "" && r[i] != "."
    ensures |r| <= |segs|
  {
    if segs == [] then []
    else if segs[0] == "" || segs[0] == "." then Components(segs[1..])
    else [segs[0]] + Components(segs[1..])
  }

  /** `Path(path).name`: the last component, or "" when there is none. */
  function Name(path: string): (r: string)
    ensures r != "" ==> '/' !in r
  {
    var cs := Components(Split(path, '/'));
    if cs == [] then "" else SplitPartFree(path, '/', |cs| - 1); cs[|cs| - 1]
  }

  /** The pieces `Split` cuts hold no separator, and neither do the
      components kept from them. */
  lemma SplitPartFree(path: string, c: char, i: nat)
    requires i < |Components(Split(path, c))|
    ensures c !in Components(Split(path, c))[i]
  {
    var segs := Split(path, c);
    SplitPiecesFree(path, c);
    ComponentsFrom(segs, c, i);
  }

  lemma {:induction false} SplitPiecesFree(s: string, c: char)
    ensures forall i :: 0 <= i < |Split(s, c)| ==> c !in Split(s, c)[i]
    decreases |s|
  {
    if s != [] && s[0] != c {
      SplitPiecesFree(s[1..], c);
    } else if s != [] {
      SplitPiecesFree(s[1..], c);
    }
  }

  lemma {:induction false} ComponentsFrom(segs: seq<string>, c: char, i: nat)
    requires forall j :: 0 <= j < |segs| ==> c !in segs[j]
    requires i < |Components(segs)|
    ensures c !in Components(segs)[i]
  {
    if segs[0] == "" || segs[0] == "." {
      ComponentsFrom(segs[1..], c, i);
    } else if i > 0 {
      ComponentsFrom(segs[1..], c, i - 1);
    }
  }

  /** Where the extension of a name starts: its last ".", when that is
      neither the first nor the last character. */
  function DotAt(n: string): (r: int)
    ensures r == -1 || (0 < r < |n| - 1 && n[r] == '.' && '.' !in n[r + 1..])
  {
    var i := LastIndex(n, '.');
    if 0 < i < |n| - 1 then i else -1
  }

  /** The index of the last `c` in `s`, or -1. */
  function LastIndex(s: string, c: char): (r: int)
    ensures -1 <= r < |s|
    ensures r >= 0 ==> s[r] == c && c !in s[r + 1..]
    ensures r == -1 ==> c !in s
  {
    if s == [] then -1
    else if s[|s| - 1] == c then |s| - 1
    else
      var r := LastIndex(s[..|s| - 1], c);
      assert s[..|s| - 1] + [s[|s| - 1]] == s;
      if r >= 0 then assert s[r + 1..] == s[..|s| - 1][r + 1..] + [s[|s| - 1]]; r else r
  }

  /** `Path(path).suffix`. */
  function Suffix(path: string): (r: string)
    ensures r == "" || (r[0] == '.' && '.' !in r[1..])
  {
    var n := Name(path);
    var i := DotAt(n);
    if i == -1 then "" else n[i..]
  }

  /** `Path(path).stem`. */
  function Stem(path: string): (r: string)
  {
    var n := Name(path);
    var i := DotAt(n);
    if i == -1 then n else n[..i]
  }

  /** The stem followed by the suffix is the name. */
  lemma StemSuffix(path: string)
    ensures Stem(path) + Suffix(path) == Name(path)
  {
  }

  /** A file named `<base>.yaml` in any directory has the stem `base` and
      the suffix ".yaml", when `base` is a plain non-empty file name. */
  lemma YamlFile(dir: string, base: string)
    requires base != "" && base != "." && '/' !in base
    ensures Name(dir + "/" + base + ".yaml") == base + ".yaml"
    ensures Stem(dir + "/" + base + ".yaml") == base
    ensures Suffix(dir + "/" + base + ".yaml") == ".yaml"
  {
    var n := base + ".yaml";
    var ext := ".yaml";
    assert '/' !in ext && '.' !in ext[1..];
    assert '/' !in n by {
      forall i | 0 <= i < |n|
        ensures n[i] != '/'
      {
        if i >= |base| { assert n[i] == ext[i - |base|]; }
      }
    }
    assert dir + "/" + base + ".yaml" == dir + "/" + n;
    LastPiece(dir, n);
    var r := LastIndex(n, '.');
    assert n[|base|] == '.';
    assert r == |base|;
    assert n[..|base|] == base && n[|base|..] == ext;
  }

  /** The last piece of `dir + "/" + n`, for a plain name `n`, is `n`. */
  lemma LastPiece(dir: string, n: string)
    requires n != "" && n != "." && '/' !in n
    ensures Name(dir + "/" + n) == n
  {
    SplitConcat(dir, '/', n);
    assert Split(n, '/') == [n] by { SplitFree(n, '/'); }
    ComponentsEnd(Split(dir, '/'), n);
  }

  /** Splitting at a separator between two strings splits each. */
  lemma {:induction false} SplitConcat(s: string, c: char, t: string)
    ensures Split(s + [c] + t, c) == Split(s, c) + Split(t, c)
    decreases |s|
  {
    if s == [] {
      assert s + [c] + t == [c] + t;
      assert ([c] + t)[1..] == t;
    } else {
      assert (s + [c] + t)[1..] == s[1..] + [c] + t;
      SplitConcat(s[1..], c, t);
    }
  }

  /** A kept component at the end of the segments is the last component. */
  lemma {:induction false} ComponentsEnd(segs: seq<string>, n: string)
    requires n != "" && n != "."
    ensures Components(segs + [n]) != [] && Components(segs + [n])[|Components(segs + [n])| - 1] == n
  {
    if segs == [] {
      assert segs + [n] == [n];
      assert Components([n][1..]) == [];
    } else {
      assert (segs + [n])[1..] == segs[1..] + [n];
      ComponentsEnd(segs[1..], n);
    }
  }
}
