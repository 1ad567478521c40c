/**
 * The parts of Python's `str` behaviour the modelled code relies on.
 * Characters are classified for ASCII, Latin-1 and Cyrillic; the course
 * texts are Russian.
 */
module Text {
  import opened Wrappers


  /** `str.isspace()`: the Unicode whitespace characters. */
  predicate IsSpace(c: char)
  {
    var n := c as int;
    (9 <= n <= 13) || (28 <= n <= 32) || n == 0x85 || n == 0xA0 || n == 0x1680
    || (0x2000 <= n <= 0x200A) || n == 0x2028 || n == 0x2029 || n == 0x202F
    || n == 0x205F || n == 0x3000
  }

  predicate IsAsciiDigit(c: char) { '0' <= c <= '9' }

  predicate IsCyrillicLetter(c: char)
  {
    ('Ѐ' <= c <= 'ҁ') || ('Ҋ' <= c <= 'ӿ')
  }

  predicate IsLetter(c: char)
  {
    ('a' <= c <= 'z') || ('A' <= c <= 'Z') || IsCyrillicLetter(c)
  }

  /** A word character of `re`'s `\w`: letters, digits and the underscore. */
  predicate IsWordChar(c: char)
  {
    IsLetter(c) || IsAsciiDigit(c) || c == '_'
  }

  /** `str.lower()` on one character: ASCII and the Russian upper-case block. */
  function LowerChar(c: char): (r: char)
    ensures IsSpace(r) <==> IsSpace(c)
    ensures IsWordChar(r) <==> IsWordChar(c)
    ensures ('A' <= c <= 'Z') ==> r as int == c as int + 32
    ensures !(('A' <= c <= 'Z') || ('Ѐ' <= c <= 'Я')) ==> r == c
  {
    if 'A' <= c <= 'Z' then (c as int + 32) as char
    else if 'А' <= c <= 'Я' then (c as int + 32) as char
    else if 'Ѐ' <= c <= 'Џ' then (c as int + 80) as char
    else c
  }

  /** `str.upper()` on one character. */
  function UpperChar(c: char): (r: char)
    ensures IsSpace(r) <==> IsSpace(c)
    ensures ('a' <= c <= 'z') ==> r as int == c as int - 32
    ensures !(('a' <= c <= 'z') || ('а' <= c <= 'џ')) ==> r == c
  {
    if 'a' <= c <= 'z' then (c as int - 32) as char
    else if 'а' <= c <= 'я' then (c as int - 32) as char
    else if 'ѐ' <= c <= 'џ' then (c as int - 80) as char
    else c
  }

  function Lower(s: string): (r: string)
    ensures |r| == |s|
    ensures forall i :: 0 <= i < |s| ==> r[i] == LowerChar(s[i])
  {
    if s == [] then [] else [LowerChar(s[0])] + Lower(s[1..])
  }

  function Upper(s: string): (r: string)
    ensures |r| == |s|
    ensures forall i :: 0 <= i < |s| ==> r[i] == UpperChar(s[i])
  {
    if s == [] then [] else [UpperChar(s[0])] + Upper(s[1..])
  }

  ghost predicate AllSpace(s: string)
  {
    forall i :: 0 <= i < |s| ==> IsSpace(s[i])
  }

  ghost predicate NoSpace(s: string)
  {
    forall i :: 0 <= i < |s| ==> !IsSpace(s[i])
  }

  /** `str.lstrip()`. */
  function StripLeft(s: string): string
  {
    if s == [] || !IsSpace(s[0]) then s else StripLeft(s[1..])
  }

  /** `lstrip` removes a blank prefix and stops at the first non-space character. */
  lemma {:induction false} StripLeftFacts(s: string)
    ensures |StripLeft(s)| <= |s| && StripLeft(s) == s[|s| - |StripLeft(s)|..]
    ensures AllSpace(s[..|s| - |StripLeft(s)|])
    ensures StripLeft(s) == [] || !IsSpace(StripLeft(s)[0])
  {
    if s != [] && IsSpace(s[0]) {
      StripLeftFacts(s[1..]);
      var k := |s| - |StripLeft(s)|;
      assert forall i :: 1 <= i < k ==> s[..k][i] == s[1..][..k - 1][i - 1];
    }
  }

  /** `str.rstrip()`. */
  function StripRight(s: string): string
  {
    if s == [] || !IsSpace(s[|s| - 1]) then s else StripRight(s[..|s| - 1])
  }

  /** `rstrip` removes a blank suffix and stops at the last non-space character. */
  lemma {:induction false} StripRightFacts(s: string)
    ensures |StripRight(s)| <= |s| && StripRight(s) == s[..|StripRight(s)|]
    ensures AllSpace(s[|StripRight(s)|..])
    ensures StripRight(s) == [] || !IsSpace(StripRight(s)[|StripRight(s)| - 1])
  {
    if s != [] && IsSpace(s[|s| - 1]) {
      StripRightFacts(s[..|s| - 1]);
      var k := |StripRight(s)|;
      assert forall i :: 0 <= i < |s| - 1 - k ==> s[k..][i] == s[..|s| - 1][k..][i];
    }
  }

  /** `str.strip()`. */
  function Strip(s: string): string
  {
    StripRight(StripLeft(s))
  }

  /** A stripped string is empty exactly when the input is blank, and otherwise has no edge whitespace. */
  lemma StripFacts(s: string)
    ensures Strip(s) == [] || (!IsSpace(Strip(s)[0]) && !IsSpace(Strip(s)[|Strip(s)| - 1]))
    ensures Strip(s) == [] <==> AllSpace(s)
  {
    var l := StripLeft(s);
    var r := StripRight(l);
    StripLeftFacts(s);
    StripRightFacts(l);
    assert s == s[..|s| - |l|] + l;
    assert r == [] ==> l[|r|..] == l;
    AllSpaceAppend(s[..|s| - |l|], l);
    if r != [] {
      assert r[0] == l[0];
    }
  }

  lemma AllSpaceAppend(a: string, b: string)
    ensures AllSpace(a + b) <==> AllSpace(a) && AllSpace(b)
  {
    if AllSpace(a) && AllSpace(b) {
      forall i | 0 <= i < |a + b| ensures IsSpace((a + b)[i]) {
        if i >= |a| { assert (a + b)[i] == b[i - |a|]; }
      }
    }
    if AllSpace(a + b) {
      forall i | 0 <= i < |b| ensures IsSpace(b[i]) { assert (a + b)[|a| + i] == b[i]; }
      forall i | 0 <= i < |a| ensures IsSpace(a[i]) { assert (a + b)[i] == a[i]; }
    }
  }

  /** The longest prefix of `s` that holds no whitespace. */
  function Word(s: string): (w: string)
    ensures |w| <= |s| && w == s[..|w|] && NoSpace(w)
    ensures |w| == |s| || IsSpace(s[|w|])
    ensures s != [] && !IsSpace(s[0]) ==> w != []
  {
    if s == [] || IsSpace(s[0]) then [] else [s[0]] + Word(s[1..])
  }

  /** `str.split()` with no separator: the maximal runs of non-whitespace. */
  function Split(s: string): (ws: seq<string>)
    ensures forall k :: 0 <= k < |ws| ==> ws[k] != [] && NoSpace(ws[k])
    decreases |s|
  {
    var t := StripLeft(s);
    StripLeftFacts(s);
    if t == [] then []
    else
      var w := Word(t);
      var rest := Split(t[|w|..]);
      assert forall k :: 0 <= k < |rest| ==> rest[k] != [] && NoSpace(rest[k]);
      [w] + rest
  }

  /** Every character of a word `str.split()` gives is a character of the string split. */
  lemma {:induction false} SplitChars(s: string, k: nat, i: nat)
    requires k < |Split(s)| && i < |Split(s)[k]|
    ensures Split(s)[k][i] in s
    decreases |s|
  {
    var t := StripLeft(s);
    StripLeftFacts(s);
    var w := Word(t);
    var off := |s| - |t|;
    if k == 0 {
      assert Split(s)[0] == w;
      assert w[i] == t[i] == s[off + i];
    } else {
      var rest := t[|w|..];
      assert Split(s)[k] == Split(rest)[k - 1];
      SplitChars(rest, k - 1, i);
      var c := Split(rest)[k - 1][i];
      var j :| 0 <= j < |rest| && rest[j] == c;
      assert s[off + |w| + j] == c;
    }
  }

  /** `sep.join(parts)`. */
  function Join(sep: string, parts: seq<string>): (r: string)
    ensures parts == [] ==> r == []
    ensures |parts| == 1 ==> r == parts[0]
  {
    if parts == [] then []
    else if |parts| == 1 then parts[0]
    else parts[0] + sep + Join(sep, parts[1..])
  }
  /** `s.find(c)`: the first index holding `c`, or -1. */
  function Find(s: string, c: char): (r: int)
    ensures -1 <= r < |s|
    ensures r == -1 <==> c !in s
    ensures r >= 0 ==> s[r] == c && c !in s[..r]
  {
    if s == [] then -1
    else if s[0] == c then 0
    else
      var r := Find(s[1..], c);
      assert s[1..] == s[1..][..|s| - 1];
      if r == -1 then -1
      else
        assert s[..r + 1] == [s[0]] + s[1..][..r];
        r + 1
  }

  /** `s.rfind(c)`: the last index holding `c`, or -1. */
  function RFind(s: string, c: char): (r: int)
    ensures -1 <= r < |s|
    ensures r == -1 <==> c !in s
    ensures r >= 0 ==> s[r] == c && c !in s[r + 1..]
  {
    if s == [] then -1
    else if s[|s| - 1] == c then |s| - 1
    else
      var r := RFind(s[..|s| - 1], c);
      if r == -1 then
        assert s == s[..|s| - 1] + [s[|s| - 1]];
        -1
      else
        assert s[r + 1..] == s[..|s| - 1][r + 1..] + [s[|s| - 1]];
        r
  }

  /** Python's `s[i:j]` for non-negative bounds: empty when `j <= i`. */
  function Slice(s: string, i: nat, j: nat): (r: string)
    ensures |r| <= |s|
    ensures i < j <= |s| ==> r == s[i..j]
    ensures j <= i ==> r == []
  {
    if j <= i || i >= |s| then [] else s[i..if j < |s| then j else |s|]
  }
  /** `s.startswith(p)`. */
  predicate StartsWith(s: string, p: string)
  {
    |p| <= |s| && s[..|p|] == p
  }

  /** `sub in s` for strings: `sub` starts at some position of `s`. */
  predicate Contains(s: string, sub: string)
  {
    StartsWith(s, sub) || (s != [] && Contains(s[1..], sub))
  }

  /** Whatever stands before and after it, a piece is contained in the text. */
  lemma {:induction false} ContainsInfix(before: string, sub: string, after: string)
    ensures Contains(before + sub + after, sub)
  {
    if before == [] {
      assert (before + sub + after)[..|sub|] == sub;
    } else {
      ContainsInfix(before[1..], sub, after);
      assert (before + sub + after)[1..] == before[1..] + sub + after;
    }
  }

  /**
   * `re.split` on a one-character class: the pieces between separators,
   * empty pieces included, so there is one more piece than separators.
   */
  function SplitOn(s: string, isSep: char -> bool): (parts: seq<string>)
    ensures |parts| >= 1
    ensures forall k :: 0 <= k < |parts| ==> forall c :: c in parts[k] ==> !isSep(c)
  {
    if s == [] then [[]]
    else
      var rest := SplitOn(s[1..], isSep);
      if isSep(s[0]) then [[]] + rest
      else [[s[0]] + rest[0]] + rest[1..]
  }

  /** The decimal digits of `n`, as `str(n)` writes them. */
  function NatToString(n: nat): (r: string)
    ensures |r| >= 1 && forall c :: c in r ==> IsAsciiDigit(c)
  {
    var d := ['0' + (n % 10) as char];
    if n < 10 then d else NatToString(n / 10) + d
  }

  /** `str.replace(pat, sub)` for a non-empty `pat`: left to right, matches do not overlap. */
  function Replace(s: string, pat: string, sub: string): string
    requires pat != []
    decreases |s|
  {
    if |s| < |pat| then s
    else if s[..|pat|] == pat then sub + Replace(s[|pat|..], pat, sub)
    else [s[0]] + Replace(s[1..], pat, sub)
  }

  /** A string with no character starting the pattern is left as it is. */
  lemma {:induction false} ReplaceUntouched(s: string, pat: string, sub: string)
    requires pat != [] && forall i :: 0 <= i < |s| ==> s[i] != pat[0]
    ensures Replace(s, pat, sub) == s
    decreases |s|
  {
    if |s| >= |pat| {
      assert s[..|pat|][0] != pat[0];
      ReplaceUntouched(s[1..], pat, sub);
      assert s == [s[0]] + s[1..];
    }
  }

  /** A leading match is replaced and the rest is processed after it. */
  lemma ReplaceLeading(pat: string, rest: string, sub: string)
    requires pat != []
    ensures Replace(pat + rest, pat, sub) == sub + Replace(rest, pat, sub)
  {
    assert (pat + rest)[..|pat|] == pat;
    assert (pat + rest)[|pat|..] == rest;
  }

  /** The digits and single underscores `int()` accepts between a sign and the end. */
  predicate DigitGroups(s: string)
  {
    |s| > 0 && IsAsciiDigit(s[0]) && IsAsciiDigit(s[|s| - 1])
    && (forall i :: 0 <= i < |s| ==> IsAsciiDigit(s[i]) || s[i] == '_')
    && (forall i :: 0 <= i < |s| - 1 ==> s[i] == '_' ==> s[i + 1] != '_')
  }

  /** The decimal value of the digits of `s`, underscores skipped. */
  function DigitsValue(s: string): nat
  {
    if s == [] then 0
    else
      var c := s[|s| - 1];
      if IsAsciiDigit(c) then DigitsValue(s[..|s| - 1]) * 10 + (c as int - '0' as int)
      else DigitsValue(s[..|s| - 1])
  }

  /**
   * `int(s)` on a `str`, decimal digits being ASCII: surrounding whitespace,
   * an optional sign, then digit groups; None where Python raises `ValueError`.
   */
  function PyInt(s: string): (r: Option<int>)
  {
    var t := Strip(s);
    if t != [] && (t[0] == '+' || t[0] == '-') then
      if DigitGroups(t[1..]) then Option<int>.Some(if t[0] == '-' then 0 - DigitsValue(t[1..]) else DigitsValue(t[1..])) else None
    else if DigitGroups(t) then Some(DigitsValue(t))
    else None
  }

  /** `int(str(n)) == n`. */
  lemma {:induction false} PyIntOfString(n: nat)
    ensures PyInt(NatToString(n)) == Some(n)
  {
    var d := NatToString(n);
    assert d[0] in d && d[|d| - 1] in d;
    assert forall i :: 0 <= i < |d| ==> IsAsciiDigit(d[i]) by {
      forall i | 0 <= i < |d| ensures IsAsciiDigit(d[i]) { assert d[i] in d; }
    }
    NoEdgeSpaceStrips(d);
    assert DigitGroups(d);
    DigitsValueOfString(n);
  }

  lemma {:induction false} DigitsValueOfString(n: nat)
    ensures DigitsValue(NatToString(n)) == n
  {
    var d := NatToString(n);
    if n >= 10 {
      DigitsValueOfString(n / 10);
      assert d[..|d| - 1] == NatToString(n / 10);
    }
  }

  /** A string of digits is its own `strip()`. */
  lemma NoEdgeSpaceStrips(s: string)
    requires |s| > 0 && !IsSpace(s[0]) && !IsSpace(s[|s| - 1])
    ensures Strip(s) == s
  {
  }
}
