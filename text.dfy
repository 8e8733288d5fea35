/** The Python string operations the program relies on: `in` on strings, `str.index`,
    `str.split(sep)`, `str.strip()`, `str.lower()` and `str.isalnum()`, on `seq<char>`. */
module Text {
  import opened Common

  /** `pat` occurs in `s` starting at index `i`. */
  predicate OccursAt(pat: string, s: string, i: nat) {
    i + |pat| <= |s| && s[i..i + |pat|] == pat
  }

  /** First index at or after `k` where `pat` occurs in `s`. */
  function IndexFrom(s: string, pat: string, k: nat): (r: Option<nat>)
    requires k <= |s|
    ensures r.Some? ==> k <= r.value && OccursAt(pat, s, r.value) &&
                        forall j :: k <= j < r.value ==> !OccursAt(pat, s, j)
    ensures r.None? ==> forall j :: k <= j <= |s| ==> !OccursAt(pat, s, j)
    decreases |s| - k
  {
    if k + |pat| > |s| then None
    else if s[k..k + |pat|] == pat then Some(k)
    else IndexFrom(s, pat, k + 1)
  }

  /** Python's `s.index(pat)`, with `None` where Python raises ValueError. */
  function IndexOf(s: string, pat: string): (r: Option<nat>)
    ensures r.Some? ==> OccursAt(pat, s, r.value) && forall j :: 0 <= j < r.value ==> !OccursAt(pat, s, j)
    ensures r.None? ==> forall j :: 0 <= j <= |s| ==> !OccursAt(pat, s, j)
  {
    IndexFrom(s, pat, 0)
  }

  /** Python's `pat in s` on strings. */
  predicate Contains(s: string, pat: string) {
    IndexOf(s, pat).Some?
  }

  lemma ContainsAt(s: string, pat: string, i: nat)
    requires OccursAt(pat, s, i)
    ensures Contains(s, pat)
  {
  }

  lemma {:induction false} ContainsConcat(a: string, b: string, pat: string)
    ensures Contains(a, pat) ==> Contains(a + b, pat)
    ensures Contains(b, pat) ==> Contains(a + b, pat)
  {
    if Contains(a, pat) {
      var i := IndexOf(a, pat).value;
      assert (a + b)[i..i + |pat|] == a[i..i + |pat|];
      ContainsAt(a + b, pat, i);
    }
    if Contains(b, pat) {
      var i := IndexOf(b, pat).value;
      assert (a + b)[|a| + i..|a| + i + |pat|] == b[i..i + |pat|];
      ContainsAt(a + b, pat, |a| + i);
    }
  }

  lemma ContainsMiddle(a: string, x: string, b: string)
    ensures Contains(a + x + b, x)
  {
    assert (a + x + b)[|a|..|a| + |x|] == x;
    ContainsAt(a + x + b, x, |a|);
  }

  /** A pattern without the character `c` occurs in `a + [c] + b` exactly when it
      occurs in `a` or in `b`. */
  lemma ContainsAroundSeparator(a: string, c: char, b: string, pat: string)
    requires forall k :: 0 <= k < |pat| ==> pat[k] != c
    ensures Contains(a + [c] + b, pat) <==> Contains(a, pat) || Contains(b, pat)
  {
    var s := a + [c] + b;
    ContainsConcat(a + [c], b, pat);
    ContainsConcat(a, [c], pat);
    if Contains(s, pat) {
      var i := IndexOf(s, pat).value;
      if i + |pat| <= |a| {
        assert s[i..i + |pat|] == a[i..i + |pat|];
        ContainsAt(a, pat, i);
      } else if i > |a| {
        assert s[i..i + |pat|] == b[i - |a| - 1..i - |a| - 1 + |pat|];
        ContainsAt(b, pat, i - |a| - 1);
      } else {
        NotAcross(s, pat, c, |a|, i);
      }
    }
  }

  /** A pattern cannot occur over a position holding a character it lacks. */
  lemma NotAcross(s: string, pat: string, c: char, j: nat, i: nat)
    requires forall k :: 0 <= k < |pat| ==> pat[k] != c
    requires j < |s| && s[j] == c && i <= j < i + |pat|
    ensures !OccursAt(pat, s, i)
  {
    if i + |pat| <= |s| {
      assert s[i..i + |pat|][j - i] == c;
      assert pat[j - i] != c;
    }
  }

  lemma OccursInPrefix(s: string, pat: string, n: nat, j: nat)
    requires n <= |s| && OccursAt(pat, s[..n], j)
    ensures OccursAt(pat, s, j)
  {
    assert s[..n][j..j + |pat|] == s[j..j + |pat|];
  }

  /** Python's `s.split(sep)` for a non-empty separator. */
  function Split(s: string, sep: string): (parts: seq<string>)
    requires |sep| > 0
    ensures |parts| >= 1
    decreases |s|
  {
    match IndexOf(s, sep)
    case None => [s]
    case Some(i) => [s[..i]] + Split(s[i + |sep|..], sep)
  }

  /** Python's `sep.join(parts)`. */
  function JoinWith(parts: seq<string>, sep: string): string
    decreases |parts|
  {
    if |parts| == 0 then "" else if |parts| == 1 then parts[0]
    else parts[0] + sep + JoinWith(parts[1..], sep)
  }

  /** Splitting and joining again gives back the original string. */
  lemma {:induction false} JoinSplit(s: string, sep: string)
    requires |sep| > 0
    ensures JoinWith(Split(s, sep), sep) == s
    decreases |s|
  {
    match IndexOf(s, sep)
    case None =>
    case Some(i) =>
      var head, tail := s[..i], s[i + |sep|..];
      var rest := Split(tail, sep);
      JoinSplit(tail, sep);
      var parts := [head] + rest;
      assert Split(s, sep) == parts;
      assert parts[0] == head && parts[1..] == rest;
      assert JoinWith(parts, sep) == head + sep + JoinWith(rest, sep);
      assert s[i..i + |sep|] == sep;
      assert s == head + s[i..i + |sep|] + tail;
  }

  /** No part of a split contains the separator. */
  lemma {:induction false} SplitPartsFree(s: string, sep: string, k: nat)
    requires |sep| > 0 && k < |Split(s, sep)|
    ensures !Contains(Split(s, sep)[k], sep)
    decreases |s|
  {
    match IndexOf(s, sep)
    case None =>
    case Some(i) =>
      if k == 0 {
        if Contains(s[..i], sep) {
          var j := IndexOf(s[..i], sep).value;
          OccursInPrefix(s, sep, i, j);
        }
      } else {
        SplitPartsFree(s[i + |sep|..], sep, k - 1);
      }
  }

  /** The first part of a split is a prefix of the string. */
  lemma SplitHeadIsPrefix(s: string, sep: string)
    requires |sep| > 0
    ensures StartsWith(s, Split(s, sep)[0])
  {
    match IndexOf(s, sep)
    case None =>
    case Some(i) =>
      assert Split(s, sep)[0] == s[..i];
  }

  /** A string without the separator splits into itself alone. */
  lemma SplitWithoutSeparator(s: string, sep: string)
    requires |sep| > 0 && !Contains(s, sep)
    ensures Split(s, sep) == [s]
  {
  }

  /** The characters Python's `str.isspace` accepts in the ASCII range. */
  predicate IsSpace(c: char) {
    c == ' ' || c == '\t' || c == '\n' || c == '\r' || c == '\U{000B}' || c == '\U{000C}' ||
    c == '\U{001C}' || c == '\U{001D}' || c == '\U{001E}' || c == '\U{001F}'
  }

  /** Drops leading whitespace. */
  function TrimStart(s: string): (r: string)
    ensures |r| <= |s| && r == s[|s| - |r|..]
    ensures forall i :: 0 <= i < |s| - |r| ==> IsSpace(s[i])
    ensures |r| > 0 ==> !IsSpace(r[0])
  {
    if |s| > 0 && IsSpace(s[0]) then TrimStart(s[1..]) else s
  }

  /** Drops trailing whitespace. */
  function TrimEnd(s: string): (r: string)
    ensures |r| <= |s| && r == s[..|r|]
    ensures forall i :: |r| <= i < |s| ==> IsSpace(s[i])
    ensures |r| > 0 ==> !IsSpace(r[|r| - 1])
  {
    if |s| > 0 && IsSpace(s[|s| - 1]) then TrimEnd(s[..|s| - 1]) else s
  }

  /** Python's `s.strip()`. */
  function Strip(s: string): string {
    TrimEnd(TrimStart(s))
  }

  /** What `strip` removes is whitespace at both ends, and what it keeps starts and
      ends with a non-space character. */
  lemma StripIsSlice(s: string)
    ensures var a := |s| - |TrimStart(s)|;
            && a + |Strip(s)| <= |s| && Strip(s) == s[a..a + |Strip(s)|]
            && (forall i :: 0 <= i < a ==> IsSpace(s[i]))
            && (forall i :: a + |Strip(s)| <= i < |s| ==> IsSpace(s[i]))
    ensures |Strip(s)| > 0 ==> !IsSpace(Strip(s)[0]) && !IsSpace(Strip(s)[|Strip(s)| - 1])
  {
    var t := TrimStart(s);
    var u := TrimEnd(t);
    var a := |s| - |t|;
    assert t == s[a..];
    assert u == t[..|u|];
    assert u == s[a..a + |u|];
    forall i | a + |u| <= i < |s|
      ensures IsSpace(s[i])
    {
      assert s[i] == t[i - a];
    }
  }

  /** A string strips to "" exactly when it is all whitespace. */
  lemma StripBlank(s: string)
    ensures Strip(s) == "" <==> forall i :: 0 <= i < |s| ==> IsSpace(s[i])
  {
  }

  /** Stripping twice is stripping once. */
  lemma StripIdempotent(s: string)
    ensures Strip(Strip(s)) == Strip(s)
  {
    var r := Strip(s);
    StripIsSlice(s);
    assert TrimStart(r) == r;
  }

  /** Python's `str.lower()` on ASCII letters; other characters are unchanged. */
  function LowerChar(c: char): char {
    if 'A' <= c <= 'Z' then (c as int + 32) as char else c
  }

  function Lower(s: string): (r: string)
    ensures |r| == |s| && forall i :: 0 <= i < |s| ==> r[i] == LowerChar(s[i])
  {
    seq(|s|, i requires 0 <= i < |s| => LowerChar(s[i]))
  }

  /** Lower-casing leaves no ASCII capital, moves each capital to its small letter,
      keeps every other character, and changes nothing the second time. */
  lemma LowerIdempotent(s: string)
    ensures forall i :: 0 <= i < |s| ==> !('A' <= Lower(s)[i] <= 'Z')
    ensures forall i :: 0 <= i < |s| ==> if 'A' <= s[i] <= 'Z' then Lower(s)[i] as int == s[i] as int + 32 else Lower(s)[i] == s[i]
    ensures Lower(Lower(s)) == Lower(s)
  {
  }

  /** Python's `str.isalnum()` on one ASCII character. */
  predicate IsAlnum(c: char) {
    'a' <= c <= 'z' || 'A' <= c <= 'Z' || '0' <= c <= '9'
  }

  predicate StartsWith(s: string, prefix: string) {
    |prefix| <= |s| && s[..|prefix|] == prefix
  }
}
