/** String operations the screens use: `trim()`, `toLowerCase()`, a keyword
    regular expression `/w1|w2|.../` and `replace(/[#*]/g, '')`. */
module Text {

  /** The characters `String.prototype.trim` strips: white space and line terminators. */
  predicate IsSpace(c: char)
  {
    c == ' ' || c == '\t' || c == '\n' || c == '\r' || c == '\U{000B}' || c == '\U{000C}'
    || c == '\U{00A0}' || c == '\U{1680}' || ('\U{2000}' <= c <= '\U{200A}')
    || c == '\U{2028}' || c == '\U{2029}' || c == '\U{202F}' || c == '\U{205F}'
    || c == '\U{3000}' || c == '\U{FEFF}'
  }

  predicate IsBlank(s: string)
  {
    forall i :: 0 <= i < |s| ==> IsSpace(s[i])
  }

  /** `s.trimStart()`: the suffix left after the leading white space. */
  function TrimStart(s: string): (r: string)
    ensures |r| <= |s| && r == s[|s| - |r|..]
    ensures IsBlank(s[..|s| - |r|])
    ensures r == [] || !IsSpace(r[0])
    ensures r == [] <==> IsBlank(s)
  {
    if |s| > 0 && IsSpace(s[0]) then
      assert IsBlank(s) <==> IsBlank(s[1..]) by {
        assert forall i :: 0 <= i < |s[1..]| ==> s[1..][i] == s[i + 1];
      }
      TrimStart(s[1..])
    else s
  }

  /** `s.trimEnd()`: the prefix left before the trailing white space. */
  function TrimEnd(s: string): (r: string)
    ensures |r| <= |s| && r == s[..|r|]
    ensures IsBlank(s[|r|..])
    ensures r == [] || !IsSpace(r[|r| - 1])
    ensures r == [] <==> IsBlank(s)
  {
    if |s| > 0 && IsSpace(s[|s| - 1]) then
      assert IsBlank(s) <==> IsBlank(s[..|s| - 1]) by {
        assert forall i :: 0 <= i < |s| - 1 ==> s[..|s| - 1][i] == s[i];
      }
      TrimEnd(s[..|s| - 1])
    else s
  }

  /** `s.trim()`: the middle of `s` left after blank ends are cut off; empty
      exactly for a blank string, and never starting or ending with white space. */
  function Trim(s: string): (r: string)
    ensures exists i, j :: 0 <= i <= j <= |s| && r == s[i..j] && IsBlank(s[..i]) && IsBlank(s[j..])
    ensures r == [] <==> IsBlank(s)
    ensures r == [] || (!IsSpace(r[0]) && !IsSpace(r[|r| - 1]))
  {
    var t := TrimStart(s);
    assert t != [] ==> !IsBlank(t);
    var r := TrimEnd(t);
    assert r != [] ==> r[0] == t[0];
    var i := |s| - |t|;
    assert s[i..i + |r|] == r && s[i + |r|..] == t[|r|..];
    r
  }

  /** A string with no white space at its ends is its own trim. */
  lemma TrimIdentity(s: string)
    requires |s| > 0 && !IsSpace(s[0]) && !IsSpace(s[|s| - 1])
    ensures Trim(s) == s
  {
  }

  function LowerChar(c: char): char
  {
    if 'A' <= c <= 'Z' then (c as int + 32) as char else c
  }

  /** `s.toLowerCase()` on ASCII letters. */
  function ToLower(s: string): (r: string)
    ensures |r| == |s|
    ensures forall i :: 0 <= i < |s| ==> r[i] == LowerChar(s[i])
  {
    if s == [] then [] else [LowerChar(s[0])] + ToLower(s[1..])
  }

  /** `s` has `p` as a contiguous piece starting somewhere. */
  predicate Contains(s: string, p: string)
  {
    |p| <= |s| && (s[..|p|] == p || Contains(s[1..], p))
  }

  /** `s.match(/w1|w2|.../)` succeeds: some keyword occurs in `s`. */
  predicate MatchesAny(s: string, keywords: seq<string>)
  {
    exists k :: 0 <= k < |keywords| && Contains(s, keywords[k])
  }

  /** `r` can be obtained from `s` by deleting characters, the rest kept in order. */
  predicate IsSubsequence(r: string, s: string)
  {
    r == [] || (s != [] && ((r[0] == s[0] && IsSubsequence(r[1..], s[1..])) || IsSubsequence(r, s[1..])))
  }

  /** `s.replace(/[#*]/g, '')`: a subsequence of `s` without markup that keeps
      every other character as often as `s` has it, so exactly `s` with the
      markup characters deleted, in order. */
  function StripMarkup(s: string): (r: string)
    ensures |r| <= |s|
    ensures IsSubsequence(r, s)
    ensures forall i :: 0 <= i < |r| ==> r[i] != '#' && r[i] != '*'
    ensures forall c :: c != '#' && c != '*' ==> multiset(r)[c] == multiset(s)[c]
    ensures (forall i :: 0 <= i < |s| ==> s[i] != '#' && s[i] != '*') ==> r == s
  {
    if s == [] then []
    else
      assert s == [s[0]] + s[1..];
      if s[0] == '#' || s[0] == '*' then StripMarkup(s[1..])
      else
        var r := [s[0]] + StripMarkup(s[1..]);
        assert r[1..] == StripMarkup(s[1..]);
        r
  }

  /** Stripping a concatenation strips each part. */
  lemma {:induction false} StripMarkupAppend(a: string, b: string)
    ensures StripMarkup(a + b) == StripMarkup(a) + StripMarkup(b)
  {
    if a == [] {
      assert a + b == b;
    } else {
      var ab := a + b;
      assert ab[0] == a[0] && ab[1..] == a[1..] + b;
      StripMarkupAppend(a[1..], b);
      if a[0] == '#' || a[0] == '*' {
        calc {
          StripMarkup(ab);
          StripMarkup(ab[1..]);
          StripMarkup(a[1..]) + StripMarkup(b);
        }
      } else {
        calc {
          StripMarkup(ab);
          [a[0]] + StripMarkup(ab[1..]);
          [a[0]] + (StripMarkup(a[1..]) + StripMarkup(b));
          ([a[0]] + StripMarkup(a[1..])) + StripMarkup(b);
        }
      }
    }
  }

  /** Stripping twice is stripping once. */
  lemma StripMarkupIdempotent(s: string)
    ensures StripMarkup(StripMarkup(s)) == StripMarkup(s)
  {
  }
}
