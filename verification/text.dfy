/**
 * The Python `str` operations the modelled code relies on, on `seq<char>`:
 * prefix and suffix tests, `in`, `replace(p, "")`, `strip()`, `lstrip(c)`,
 * `rstrip(c)`, `split("/")[-1]` and `sep.join(parts)`.
 */
module Text {

  /** `s.startswith(p)`, compared character by character. */
  predicate StartsWith(s: string, p: string)
    decreases |p|
  {
    p == [] || (s != [] && s[0] == p[0] && StartsWith(s[1..], p[1..]))
  }

  /** `startswith` holds exactly when `p` is the first `|p|` characters of `s`. */
  lemma {:induction false} StartsWithIsPrefix(s: string, p: string)
    ensures StartsWith(s, p) <==> |p| <= |s| && s[..|p|] == p
    decreases |p|
  {
    if p != [] && s != [] {
      StartsWithIsPrefix(s[1..], p[1..]);
      if |p| <= |s| && s[..|p|] == p {
        assert s[1..][..|p| - 1] == p[1..];
      }
      if StartsWith(s, p) {
        assert s[..|p|] == [s[0]] + s[1..][..|p| - 1];
        assert p == [p[0]] + p[1..];
      }
    }
  }

  predicate EndsWith(s: string, p: string) {
    |p| <= |s| && s[|s| - |p|..] == p
  }

  /** Python's `p in s`. */
  predicate Contains(s: string, p: string)
    decreases |s|
  {
    StartsWith(s, p) || (|s| > 0 && Contains(s[1..], p))
  }

  lemma {:induction false} ContainsAt(s: string, p: string, i: nat)
    requires i + |p| <= |s| && s[i..i + |p|] == p
    ensures Contains(s, p)
    decreases i
  {
    if i > 0 {
      assert s[1..][i - 1..i - 1 + |p|] == s[i..i + |p|];
      ContainsAt(s[1..], p, i - 1);
    } else {
      StartsWithIsPrefix(s, p);
    }
  }

  /** Characters for which Python's `str.isspace()` holds; also what `\s` matches in a `str` pattern. */
  predicate IsSpace(c: char) {
    c == ' ' || ('\t' <= c <= '\r') || ('\U{1C}' <= c <= '\U{1F}') || c == '\U{85}' || c == '\U{A0}'
    || c == '\U{1680}' || ('\U{2000}' <= c <= '\U{200A}') || c == '\U{2028}' || c == '\U{2029}'
    || c == '\U{202F}' || c == '\U{205F}' || c == '\U{3000}'
  }

  /*
   * The stripping functions state only that they return a suffix or prefix of
   * their argument; what they remove and where they stop is stated by the lemmas
   * after them. Keeping quantifiers out of these contracts keeps the evaluation
   * of the functions on literal strings cheap for the verifier.
   */

  /** `s.lstrip()`: drop leading whitespace. */
  function LStrip(s: string): (r: string)
  {
    if |s| > 0 && IsSpace(s[0]) then LStrip(s[1..]) else s
  }

  /** `lstrip()` removes whitespace only, and all of it. */
  lemma {:induction false} LStripRemovesLeadingSpace(s: string)
    ensures var r := LStrip(s);
      |r| <= |s| && r == s[|s| - |r|..]
      && (r == [] || !IsSpace(r[0])) && (forall i :: 0 <= i < |s| - |r| ==> IsSpace(s[i]))
  {
    if |s| > 0 && IsSpace(s[0]) {
      LStripRemovesLeadingSpace(s[1..]);
    }
  }

  /** `s.rstrip()`: drop trailing whitespace. */
  function RStrip(s: string): (r: string)
  {
    if |s| > 0 && IsSpace(s[|s| - 1]) then RStrip(s[..|s| - 1]) else s
  }

  /** `rstrip()` removes whitespace only, and all of it. */
  lemma {:induction false} RStripRemovesTrailingSpace(s: string)
    ensures var r := RStrip(s);
      |r| <= |s| && r == s[..|r|]
      && (r == [] || !IsSpace(r[|r| - 1])) && (forall i :: |r| <= i < |s| ==> IsSpace(s[i]))
  {
    if |s| > 0 && IsSpace(s[|s| - 1]) {
      RStripRemovesTrailingSpace(s[..|s| - 1]);
    }
  }

  /** `s.strip()`. */
  function Strip(s: string): (r: string)
  {
    RStrip(LStrip(s))
  }

  /** The result of `strip()` neither starts nor ends with whitespace. */
  lemma StripLeavesNoBoundarySpace(s: string)
    ensures var r := Strip(s); r == [] || (!IsSpace(r[0]) && !IsSpace(r[|r| - 1]))
  {
    var l := LStrip(s);
    LStripRemovesLeadingSpace(s);
    RStripRemovesTrailingSpace(l);
  }

  /** A string with no whitespace at either end is left as it is by `strip()`. */
  lemma StripKeepsTrimmed(s: string)
    requires s == [] || (!IsSpace(s[0]) && !IsSpace(s[|s| - 1]))
    ensures Strip(s) == s
  {
  }

  /** `s.lstrip(c)` for a single character `c`. */
  function LStripChar(s: string, c: char): (r: string)
  {
    if |s| > 0 && s[0] == c then LStripChar(s[1..], c) else s
  }

  /** `lstrip(c)` removes copies of `c` only, and all the leading ones. */
  lemma {:induction false} LStripCharRemovesLeading(s: string, c: char)
    ensures var r := LStripChar(s, c);
      |r| <= |s| && r == s[|s| - |r|..]
      && (r == [] || r[0] != c) && (forall i :: 0 <= i < |s| - |r| ==> s[i] == c)
  {
    if |s| > 0 && s[0] == c {
      LStripCharRemovesLeading(s[1..], c);
    }
  }

  /** `s.rstrip(c)` for a single character `c`. */
  function RStripChar(s: string, c: char): (r: string)
  {
    if |s| > 0 && s[|s| - 1] == c then RStripChar(s[..|s| - 1], c) else s
  }

  /** `rstrip(c)` removes copies of `c` only, and all the trailing ones. */
  lemma {:induction false} RStripCharRemovesTrailing(s: string, c: char)
    ensures var r := RStripChar(s, c);
      |r| <= |s| && r == s[..|r|]
      && (r == [] || r[|r| - 1] != c) && (forall i :: |r| <= i < |s| ==> s[i] == c)
  {
    if |s| > 0 && s[|s| - 1] == c {
      RStripCharRemovesTrailing(s[..|s| - 1], c);
    }
  }

  /** `s.replace(p, "")`: remove every non-overlapping occurrence of `p`, scanning left to right. */
  function RemoveAll(s: string, p: string): string
    requires |p| > 0
    decreases |s|
  {
    if |s| == 0 then []
    else
      var hit := StartsWith(s, p);
      StartsWithIsPrefix(s, p);
      (if hit then [] else [s[0]]) + RemoveAll(s[if hit then |p| else 1..], p)
  }

  lemma {:induction false} RemoveAllAbsent(s: string, p: string)
    requires |p| > 0 && !Contains(s, p)
    ensures RemoveAll(s, p) == s
    decreases |s|
  {
    if |s| > 0 {
      RemoveAllAbsent(s[1..], p);
      assert [s[0]] + s[1..] == s;
    }
  }

  /** `s.split("/")[-1]`: what follows the last `/`, or all of `s` when it has none. */
  function LastSegment(s: string): string
  {
    if |s| == 0 then []
    else if s[|s| - 1] == '/' then []
    else LastSegment(s[..|s| - 1]) + [s[|s| - 1]]
  }

  /** The last segment is a suffix with no `/`, and a `/` precedes it unless it is all of `s`. */
  lemma {:induction false} LastSegmentIsFinalPart(s: string)
    ensures var r := LastSegment(s);
      |r| <= |s| && r == s[|s| - |r|..] && '/' !in r
      && (|r| < |s| ==> s[|s| - |r| - 1] == '/')
  {
    if |s| > 0 && s[|s| - 1] != '/' {
      LastSegmentIsFinalPart(s[..|s| - 1]);
    }
  }

  lemma {:induction false} LastSegmentNoSlash(s: string)
    requires '/' !in s
    ensures LastSegment(s) == s
  {
    if |s| > 0 {
      LastSegmentNoSlash(s[..|s| - 1]);
      assert s[..|s| - 1] + [s[|s| - 1]] == s;
    }
  }

  /** `sep.join(parts)`. */
  function Join(parts: seq<string>, sep: string): string
  {
    if |parts| == 0 then []
    else if |parts| == 1 then parts[0]
    else parts[0] + sep + Join(parts[1..], sep)
  }

  lemma {:induction false} JoinStartsWith(parts: seq<string>, sep: string)
    requires |parts| > 0
    ensures StartsWith(Join(parts, sep), parts[0])
  {
    if |parts| > 1 {
      assert Join(parts, sep) == parts[0] + (sep + Join(parts[1..], sep));
    }
    StartsWithIsPrefix(Join(parts, sep), parts[0]);
  }

  lemma {:induction false} JoinEndsWith(parts: seq<string>, sep: string)
    requires |parts| > 0
    ensures EndsWith(Join(parts, sep), parts[|parts| - 1])
  {
    if |parts| > 1 {
      JoinEndsWith(parts[1..], sep);
      assert Join(parts, sep) == (parts[0] + sep) + Join(parts[1..], sep);
    }
  }

  /** Decimal rendering of an integer, as Python's `str(n)`. */
  function IntToString(n: int): (r: string)
    ensures |r| > 0
  {
    if n < 0 then "-" + NatToString(-n) else NatToString(n)
  }

  function NatToString(n: nat): (r: string)
    ensures |r| > 0 && forall i :: 0 <= i < |r| ==> '0' <= r[i] <= '9'
  {
    var d := [(n % 10) as char + '0'];
    if n < 10 then d else NatToString(n / 10) + d
  }
}
