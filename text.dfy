/** Strings as Python and JavaScript handle them here: decimal digits,
    `str.split` on one character, `str.join`, `str.strip`, `str.replace`,
    prefix tests and code-point ordering. */
module Text {

  predicate IsDigit(c: char) { '0' <= c <= '9' }

  predicate AllDigits(s: string) { forall i :: 0 <= i < |s| ==> IsDigit(s[i]) }

  function DigitValue(c: char): nat
    requires IsDigit(c)
  {
    (c as int) - ('0' as int)
  }

  function DigitChar(d: nat): (c: char)
    requires d < 10
    ensures IsDigit(c) && DigitValue(c) == d
  {
    (('0' as int) + d) as char
  }

  /** Decimal digits of a natural number, without leading zeros (`str(n)`). */
  function NatToString(n: nat): (s: string)
    ensures |s| > 0 && AllDigits(s)
  {
    if n < 10 then [DigitChar(n)] else NatToString(n / 10) + [DigitChar(n % 10)]
  }

  /** `str(i)` for any integer. */
  function IntToString(i: int): (s: string)
    ensures |s| > 0
  {
    if i < 0 then "-" + NatToString(-i) else NatToString(i)
  }

  /** `str(i)` reads back as i: its digits, after a minus sign when i is
      negative. */
  lemma IntToStringReads(i: int)
    ensures i >= 0 ==> AllDigits(IntToString(i)) && ParseDigits(IntToString(i)) == i
    ensures i < 0 ==>
      IntToString(i)[0] == '-' && AllDigits(IntToString(i)[1..]) && ParseDigits(IntToString(i)[1..]) == -i
  {
    if i < 0 {
      ParseNatToString(-i);
      assert ("-" + NatToString(-i))[1..] == NatToString(-i);
    } else {
      ParseNatToString(i);
    }
  }

  /** Value of a string of decimal digits ("" reads as 0). */
  function ParseDigits(s: string): nat
    requires AllDigits(s)
  {
    if s == [] then 0 else ParseDigits(s[..|s| - 1]) * 10 + DigitValue(s[|s| - 1])
  }

  lemma {:induction false} ParseNatToString(n: nat)
    ensures ParseDigits(NatToString(n)) == n
  {
    if n >= 10 {
      var s := NatToString(n);
      assert s[..|s| - 1] == NatToString(n / 10);
      ParseNatToString(n / 10);
    }
  }

  function Zeros(k: nat): (s: string)
    ensures |s| == k && AllDigits(s)
  {
    seq(k, _ => '0')
  }

  /** `s` padded on the left with zeros to at least `width` characters. */
  function ZeroPad(s: string, width: nat): (r: string)
    requires AllDigits(s)
    ensures AllDigits(r) && |r| == if |s| >= width then |s| else width
  {
    if |s| >= width then s else Zeros(width - |s|) + s
  }

  lemma {:induction false} LeadingZerosIgnored(k: nat, s: string)
    requires AllDigits(s)
    ensures ParseDigits(Zeros(k) + s) == ParseDigits(s)
  {
    if s == [] {
      assert Zeros(k) + s == Zeros(k);
      ZerosParseToZero(k);
    } else {
      assert (Zeros(k) + s)[..|Zeros(k) + s| - 1] == Zeros(k) + s[..|s| - 1];
      LeadingZerosIgnored(k, s[..|s| - 1]);
    }
  }

  lemma {:induction false} ZerosParseToZero(k: nat)
    ensures ParseDigits(Zeros(k)) == 0
  {
    if k > 0 {
      assert Zeros(k)[..k - 1] == Zeros(k - 1);
      ZerosParseToZero(k - 1);
    }
  }

  lemma PaddedParse(n: nat, width: nat)
    ensures ParseDigits(ZeroPad(NatToString(n), width)) == n
  {
    ParseNatToString(n);
    if |NatToString(n)| < width {
      LeadingZerosIgnored(width - |NatToString(n)|, NatToString(n));
    }
  }

  /** `sep.join(parts)`. */
  function Join(parts: seq<string>, sep: string): string
  {
    if |parts| == 0 then "" else if |parts| == 1 then parts[0]
    else parts[0] + sep + Join(parts[1..], sep)
  }

  /** `s.split(c)` for a one-character separator: always at least one part. */
  function Split(s: string, c: char): (parts: seq<string>)
    ensures |parts| > 0
  {
    if s == [] then [""]
    else if s[0] == c then [""] + Split(s[1..], c)
    else
      var rest := Split(s[1..], c);
      [[s[0]] + rest[0]] + rest[1..]
  }

  predicate Free(s: string, c: char) { forall i :: 0 <= i < |s| ==> s[i] != c }

  lemma {:induction false} SplitFree(p: string, c: char)
    requires Free(p, c)
    ensures Split(p, c) == [p]
  {
    if p != [] {
      SplitFree(p[1..], c);
      assert [p[0]] + p[1..] == p;
    }
  }

  lemma {:induction false} SplitAtSeparator(p: string, c: char, t: string)
    requires Free(p, c)
    ensures Split(p + [c] + t, c) == [p] + Split(t, c)
  {
    if p == [] {
      assert p + [c] + t == [c] + t;
      assert ([c] + t)[1..] == t;
    } else {
      assert (p + [c] + t)[1..] == p[1..] + [c] + t;
      SplitAtSeparator(p[1..], c, t);
      assert [p[0]] + p[1..] == p;
    }
  }

  /** Splitting a join on a separator the parts do not contain gives the
      parts back. */
  lemma {:induction false} SplitJoin(parts: seq<string>, c: char)
    requires |parts| > 0
    requires forall i :: 0 <= i < |parts| ==> Free(parts[i], c)
    ensures Split(Join(parts, [c]), c) == parts
  {
    if |parts| == 1 {
      SplitFree(parts[0], c);
    } else {
      SplitJoin(parts[1..], c);
      SplitAtSeparator(parts[0], c, Join(parts[1..], [c]));
      assert [parts[0]] + parts[1..] == parts;
    }
  }

  lemma {:induction false} JoinFree(parts: seq<string>, sep: string, c: char)
    requires Free(sep, c)
    requires forall i :: 0 <= i < |parts| ==> Free(parts[i], c)
    ensures Free(Join(parts, sep), c)
  {
    if |parts| > 1 { JoinFree(parts[1..], sep, c); }
  }

  lemma {:induction false} JoinSnoc(parts: seq<string>, sep: string, x: string)
    requires |parts| > 0
    ensures Join(parts + [x], sep) == Join(parts, sep) + sep + x
  {
    if |parts| > 1 {
      assert (parts + [x])[1..] == parts[1..] + [x];
      JoinSnoc(parts[1..], sep, x);
    }
  }

  /** Lines each followed by a newline, as successive `f.write(line + "\n")`. */
  function Terminated(lines: seq<string>): string
  {
    if lines == [] then "" else lines[0] + "\n" + Terminated(lines[1..])
  }

  lemma {:induction false} TerminatedConcat(a: seq<string>, b: seq<string>)
    ensures Terminated(a + b) == Terminated(a) + Terminated(b)
  {
    if a != [] {
      assert (a + b)[1..] == a[1..] + b;
      TerminatedConcat(a[1..], b);
    } else {
      assert a + b == b;
    }
  }

  /** Splitting newline-terminated lines on the newline gives the lines and
      a final empty piece. */
  lemma {:induction false} SplitTerminated(lines: seq<string>)
    requires forall i :: 0 <= i < |lines| ==> Free(lines[i], '\n')
    ensures Split(Terminated(lines), '\n') == lines + [""]
  {
    if lines != [] {
      SplitTerminated(lines[1..]);
      assert lines[0] + "\n" + Terminated(lines[1..]) == lines[0] + ['\n'] + Terminated(lines[1..]);
      SplitAtSeparator(lines[0], '\n', Terminated(lines[1..]));
      assert [lines[0]] + lines[1..] == lines;
    }
  }

  predicate IsSpace(c: char) { c == ' ' || c == '\t' || c == '\n' || c == '\r' || c as int == 11 || c as int == 12 }

  function LStrip(s: string): (r: string)
    ensures |r| <= |s|
  {
    if s != [] && IsSpace(s[0]) then LStrip(s[1..]) else s
  }

  function RStrip(s: string): (r: string)
    ensures |r| <= |s|
  {
    if s != [] && IsSpace(s[|s| - 1]) then RStrip(s[..|s| - 1]) else s
  }

  /** `s.strip()`: whitespace removed from both ends. */
  function Strip(s: string): string
  {
    RStrip(LStrip(s))
  }

  /** Neither end of `s` is whitespace. */
  predicate Trimmed(s: string)
  {
    s == [] || (!IsSpace(s[0]) && !IsSpace(s[|s| - 1]))
  }

  lemma StripPadded(s: string)
    requires Trimmed(s)
    ensures Strip(" " + s + " ") == s
  {
    if s == [] {
      assert LStrip(" " + s + " ") == "";
    } else {
      assert (" " + s + " ")[1..] == s + " ";
      assert LStrip(" " + s + " ") == s + " ";
      assert (s + " ")[..|s|] == s;
      assert RStrip(s + " ") == RStrip(s) == s;
    }
  }

  /** Text whose first character is not whitespace does not strip to "". */
  lemma {:induction false} StripNonBlank(s: string)
    requires s != [] && !IsSpace(s[0])
    ensures Strip(s) != []
  {
    assert LStrip(s) == s;
    RStripKeepsFirst(s);
  }

  lemma {:induction false} RStripKeepsFirst(s: string)
    requires s != [] && !IsSpace(s[0])
    ensures RStrip(s) != []
  {
    if |s| > 1 && IsSpace(s[|s| - 1]) {
      RStripKeepsFirst(s[..|s| - 1]);
    }
  }

  predicate StartsWith(s: string, prefix: string)
  {
    |prefix| <= |s| && s[..|prefix|] == prefix
  }

  /** `pat` occurs in `s` starting at position `i`. */
  predicate OccursAt(s: string, pat: string, k: nat)
  {
    k + |pat| <= |s| && s[k..k + |pat|] == pat
  }

  /** `pat in s` on strings: `pat` occurs at some position of `s`. */
  function Contains(s: string, pat: string): (r: bool)
    ensures r <==> exists k: nat :: OccursAt(s, pat, k)
    decreases |s|
  {
    if StartsWith(s, pat) then
      assert OccursAt(s, pat, 0);
      true
    else if s == [] then false
    else
      var r := Contains(s[1..], pat);
      if r then
        var i: nat :| OccursAt(s[1..], pat, i);
        OccursShift(s, pat, i);
        true
      else
        assert forall k: nat :: OccursAt(s, pat, k) ==> k == 0 || OccursAt(s[1..], pat, k - 1);
        false
  }

  /** `s.replace(old, new)`: every non-overlapping occurrence, scanning
      left to right. */
  function ReplaceAll(s: string, pat: string, rep: string): (r: string)
    requires |pat| > 0
    ensures |s| < |pat| ==> r == s
    decreases |s|
  {
    if |s| < |pat| then s
    else if s[..|pat|] == pat then rep + ReplaceAll(s[|pat|..], pat, rep)
    else [s[0]] + ReplaceAll(s[1..], pat, rep)
  }

  /** Text without the pattern is left as it is, and the pattern alone
      becomes the replacement. */
  lemma {:induction false} ReplaceAllUnchanged(s: string, pat: string, rep: string)
    requires |pat| > 0
    ensures !Contains(s, pat) ==> ReplaceAll(s, pat, rep) == s
    ensures s == pat ==> ReplaceAll(s, pat, rep) == rep
    decreases |s|
  {
    if |s| < |pat| {
    } else if s[..|pat|] == pat {
      assert OccursAt(s, pat, 0);
      if s == pat {
        assert s[|pat|..] == [];
        assert rep + [] == rep;
      }
    } else {
      ReplaceAllUnchanged(s[1..], pat, rep);
      if !Contains(s, pat) && Contains(s[1..], pat) {
        var k: nat :| OccursAt(s[1..], pat, k);
        OccursShift(s, pat, k);
        assert false;
      }
      if !Contains(s, pat) {
        assert [s[0]] + s[1..] == s;
      }
    }
  }

  /** Dropping the first character moves every occurrence one place left. */
  lemma OccursShift(s: string, pat: string, k: nat)
    requires s != []
    ensures OccursAt(s[1..], pat, k) == OccursAt(s, pat, k + 1)
  {
    if k + 1 + |pat| <= |s| {
      assert s[1..][k..k + |pat|] == s[k + 1..k + 1 + |pat|];
    }
  }

  /** The pattern occurs at none of the first n positions of s. */
  predicate NoneBefore(s: string, pat: string, n: nat)
  {
    forall k: nat :: k < n ==> !OccursAt(s, pat, k)
  }

  /** Dropping the first character keeps the remaining positions clear. */
  lemma NoneBeforeShift(s: string, pat: string, n: nat)
    requires s != [] && 0 < n && NoneBefore(s, pat, n)
    ensures NoneBefore(s[1..], pat, n - 1) && !OccursAt(s, pat, 0)
  {
    forall k: nat | k < n - 1
      ensures !OccursAt(s[1..], pat, k)
    {
      OccursShift(s, pat, k);
    }
  }

  /** Text before the first occurrence is copied unchanged: the scan only
      starts replacing where the pattern first occurs. */
  lemma {:induction false} ReplaceAllSkips(s: string, n: nat, pat: string, rep: string)
    requires |pat| > 0 && n <= |s|
    requires NoneBefore(s, pat, n)
    ensures ReplaceAll(s, pat, rep) == s[..n] + ReplaceAll(s[n..], pat, rep)
  {
    if n == 0 {
      assert s[..0] + ReplaceAll(s[0..], pat, rep) == ReplaceAll(s, pat, rep);
    } else {
      NoneBeforeShift(s, pat, n);
      ReplaceAllSkips(s[1..], n - 1, pat, rep);
      ReplaceAllStep(s, pat, rep);
      assert s[1..][n - 1..] == s[n..];
      assert [s[0]] + s[1..][..n - 1] == s[..n];
    }
  }

  /** Where the pattern does not start, the first character is copied. */
  lemma ReplaceAllStep(s: string, pat: string, rep: string)
    requires |pat| > 0 && s != [] && !OccursAt(s, pat, 0)
    ensures ReplaceAll(s, pat, rep) == [s[0]] + ReplaceAll(s[1..], pat, rep)
  {
    if |s| >= |pat| {
      assert s[..|pat|] != pat by { assert s[0..|pat|] == s[..|pat|]; }
    } else {
      assert ReplaceAll(s[1..], pat, rep) == s[1..];
      assert s == [s[0]] + s[1..];
    }
  }

  lemma ReplaceAllFirst(a: string, b: string, pat: string, rep: string)
    requires |pat| > 0
    requires NoneBefore(a + pat + b, pat, |a|)
    ensures ReplaceAll(a + pat + b, pat, rep) == a + rep + ReplaceAll(b, pat, rep)
  {
    var s := a + pat + b;
    ReplaceAllSkips(s, |a|, pat, rep);
    assert s[..|a|] == a && s[|a|..] == pat + b;
    assert (pat + b)[..|pat|] == pat && (pat + b)[|pat|..] == b;
  }

  /** `name.replace("_results", "")` on a name ending in "_results" and not
      holding it elsewhere gives the name without that suffix. */
  lemma StripResultsSuffix(a: string)
    requires !Contains(a, "_results")
    ensures ReplaceAll(a + "_results", "_results", "") == a
  {
    var pat := "_results";
    forall k: nat | k < |a|
      ensures !OccursAt(a + pat + [], pat, k)
    {
      var s := a + pat + [];
      if k + |pat| <= |a| {
        assert s[k..k + |pat|] == a[k..k + |pat|];
        assert !OccursAt(a, pat, k);
      } else {
        var j := |a| - k;
        assert s[|a|] == '_';
        assert pat[j] != '_';
        assert s[k + j] == s[|a|];
      }
    }
    ReplaceAllFirst(a, [], pat, "");
    assert ReplaceAll([], pat, "") == [];
    assert a + pat + [] == a + pat;
  }

  /** Python's string order: code point by code point, a proper prefix first. */
  predicate LexLess(a: string, b: string)
  {
    if a == [] then b != []
    else if b == [] then false
    else a[0] < b[0] || (a[0] == b[0] && LexLess(a[1..], b[1..]))
  }

  predicate LexLessEq(a: string, b: string) { a == b || LexLess(a, b) }

  lemma {:induction false} LexTotal(a: string, b: string)
    ensures LexLessEq(a, b) || LexLess(b, a)
  {
    if a != [] && b != [] && a[0] == b[0] {
      LexTotal(a[1..], b[1..]);
      if a[1..] == b[1..] { assert a == [a[0]] + a[1..] && b == [b[0]] + b[1..]; }
    }
  }

  predicate SortedStrings(s: seq<string>)
  {
    forall i :: 0 <= i < |s| - 1 ==> LexLessEq(s[i], s[i + 1])
  }

  function InsertString(x: string, s: seq<string>): (r: seq<string>)
    requires SortedStrings(s)
    ensures SortedStrings(r) && multiset(r) == multiset(s) + multiset{x}
    ensures |r| > 0 && (r[0] == x || (s != [] && r[0] == s[0]))
  {
    if s == [] then [x]
    else if LexLessEq(x, s[0]) then [x] + s
    else
      LexTotal(x, s[0]);
      var t := InsertString(x, s[1..]);
      assert s == [s[0]] + s[1..];
      [s[0]] + t
  }

  /** `sorted(xs)` for strings. */
  function SortStrings(s: seq<string>): (r: seq<string>)
    ensures SortedStrings(r) && multiset(r) == multiset(s)
  {
    if s == [] then []
    else
      assert s == s[..|s| - 1] + [s[|s| - 1]];
      InsertString(s[|s| - 1], SortStrings(s[..|s| - 1]))
  }
}
