/**
 * The Python string operations the core relies on: the regular-expression
 * character classes \s, \w and \d, ASCII case mapping, str.strip,
 * str.replace, str.join, str.isdigit, int() and str() of integers.
 */
module Text {
  import opened Values

  /**
   * The Unicode character classes of Python's `re` module (and str.isspace).
   * Their ASCII part is fixed by Sane(); beyond ASCII they are left open,
   * apart from the two facts every Unicode version satisfies.
   */
  datatype CharClasses = CharClasses(isSpace: char -> bool, isWord: char -> bool, isDigit: char -> bool) {
    predicate Sane() {
      && (forall c: char :: IsAscii(c) ==> (isSpace(c) <==> IsAsciiSpace(c)))
      && (forall c: char :: IsAscii(c) ==> (isWord(c) <==> IsAsciiWord(c)))
      && (forall c: char :: IsAscii(c) ==> (isDigit(c) <==> IsAsciiDigit(c)))
      && (forall c: char :: isDigit(c) ==> isWord(c))
      && (forall c: char :: !(isSpace(c) && isWord(c)))
    }
  }

  predicate IsAscii(c: char) { c as int < 128 }
  predicate IsAsciiDigit(c: char) { '0' <= c <= '9' }
  predicate IsAsciiUpper(c: char) { 'A' <= c <= 'Z' }
  predicate IsAsciiLower(c: char) { 'a' <= c <= 'z' }
  predicate IsAsciiWord(c: char) { IsAsciiDigit(c) || IsAsciiUpper(c) || IsAsciiLower(c) || c == '_' }

  /** Space, the controls 9-13 (tab to carriage return) and the separators 28-31 are whitespace to Python. */
  predicate IsAsciiSpace(c: char) {
    c == ' ' || 9 <= c as int <= 13 || 28 <= c as int <= 31
  }

  function LowerChar(c: char): char {
    if IsAsciiUpper(c) then (c as int + 32) as char else c
  }

  function UpperChar(c: char): char {
    if IsAsciiLower(c) then (c as int - 32) as char else c
  }

  /** str.lower, on the ASCII letters. */
  function Lower(s: string): (r: string)
    ensures |r| == |s|
    ensures forall i :: 0 <= i < |s| ==> r[i] == LowerChar(s[i])
  {
    if s == [] then [] else [LowerChar(s[0])] + Lower(s[1..])
  }

  /** str.upper, on the ASCII letters. */
  function Upper(s: string): (r: string)
    ensures |r| == |s|
    ensures forall i :: 0 <= i < |s| ==> r[i] == UpperChar(s[i])
  {
    if s == [] then [] else [UpperChar(s[0])] + Upper(s[1..])
  }

  /** str.capitalize: the first character upper case, the rest lower case. */
  function Capitalize(s: string): (r: string)
    ensures |r| == |s|
    ensures s != [] ==> r[0] == UpperChar(s[0]) && r[1..] == Lower(s[1..])
  {
    if s == [] then [] else [UpperChar(s[0])] + Lower(s[1..])
  }

  predicate NoUpper(s: string) { forall i :: 0 <= i < |s| ==> !IsAsciiUpper(s[i]) }
  predicate NoLower(s: string) { forall i :: 0 <= i < |s| ==> !IsAsciiLower(s[i]) }

  lemma LowerSpec(s: string)
    ensures NoUpper(Lower(s)) && Lower(Lower(s)) == Lower(s)
  {
  }

  lemma UpperSpec(s: string)
    ensures NoLower(Upper(s)) && Upper(Upper(s)) == Upper(s)
  {
  }

  /** str.endswith. */
  predicate EndsWith(s: string, suffix: string) {
    |suffix| <= |s| && s[|s| - |suffix|..] == suffix
  }

  /** str.isdigit, on ASCII digits. */
  predicate IsDigits(s: string) {
    s != [] && forall i :: 0 <= i < |s| ==> IsAsciiDigit(s[i])
  }

  function DigitValue(c: char): nat
    requires IsAsciiDigit(c)
  {
    c as int - '0' as int
  }

  /** The number a string of ASCII digits denotes (leading zeros allowed). */
  function DigitsValue(s: string): nat
    requires forall i :: 0 <= i < |s| ==> IsAsciiDigit(s[i])
  {
    if s == [] then 0 else DigitsValue(s[..|s| - 1]) * 10 + DigitValue(s[|s| - 1])
  }

  /** str(n) for a natural number: its decimal digits, no leading zero. */
  function NatToString(n: nat): (r: string)
    ensures IsDigits(r)
    ensures DigitsValue(r) == n
    ensures |r| > 1 ==> r[0] != '0'
    decreases n
  {
    if n < 10 then [('0' as int + n) as char]
    else
      var prefix := NatToString(n / 10);
      var r := prefix + [('0' as int + n % 10) as char];
      assert r[..|r| - 1] == prefix;
      r
  }

  /** str(i) for any int. */
  function IntToString(i: int): string {
    if i < 0 then "-" + NatToString(-i) else NatToString(i)
  }

  /** str.strip(): drops leading and trailing whitespace. */
  function Strip(s: string, cc: CharClasses): (r: string)
    ensures r != [] ==> !cc.isSpace(r[0]) && !cc.isSpace(r[|r| - 1])
  {
    StripRight(StripLeft(s, cc), cc)
  }

  /** What str.strip() keeps is a slice of its argument. */
  lemma StripSlice(s: string, cc: CharClasses) returns (a: nat)
    ensures a + |Strip(s, cc)| <= |s| && Strip(s, cc) == s[a..a + |Strip(s, cc)|]
  {
    var l := StripLeft(s, cc);
    a := |s| - |l|;
    assert Strip(s, cc) == l[..|Strip(s, cc)|];
    assert l[..|Strip(s, cc)|] == s[a..a + |Strip(s, cc)|];
  }

  function StripLeft(s: string, cc: CharClasses): (r: string)
    ensures r != [] ==> !cc.isSpace(r[0])
    ensures |r| <= |s| && r == s[|s| - |r|..]
  {
    if s != [] && cc.isSpace(s[0]) then StripLeft(s[1..], cc) else s
  }

  function StripRight(s: string, cc: CharClasses): (r: string)
    ensures r != [] ==> !cc.isSpace(r[|r| - 1])
    ensures |r| <= |s| && r == s[..|r|]
  {
    if s != [] && cc.isSpace(s[|s| - 1]) then StripRight(s[..|s| - 1], cc) else s
  }

  /** int(s) for a string: optional surrounding whitespace, an optional sign, ASCII digits. */
  function ParseInt(s: string, cc: CharClasses): Option<int> {
    var t := Strip(s, cc);
    if t != [] && (t[0] == '-' || t[0] == '+') && IsDigits(t[1..]) then
      Some(if t[0] == '-' then -(DigitsValue(t[1..]) as int) else DigitsValue(t[1..]) as int)
    else if IsDigits(t) then Some(DigitsValue(t) as int)
    else None
  }

  /**
   * str.replace(pat, rep): every non-overlapping occurrence of pat, scanning
   * from the left, becomes rep; an empty pat inserts rep around every character.
   */
  function Replace(s: string, pat: string, rep: string): string
    decreases |s|
  {
    if pat == [] then
      if s == [] then rep else rep + [s[0]] + Replace(s[1..], pat, rep)
    else if |s| < |pat| then s
    else if s[..|pat|] == pat then rep + Replace(s[|pat|..], pat, rep)
    else [s[0]] + Replace(s[1..], pat, rep)
  }

  predicate OccursAt(s: string, w: string, i: nat) {
    i + |w| <= |s| && s[i..i + |w|] == w
  }

  /** Replacing a string that does not occur changes nothing. */
  lemma {:induction false} ReplaceAbsent(s: string, pat: string, rep: string)
    requires pat != []
    requires forall i :: 0 <= i <= |s| ==> !OccursAt(s, pat, i)
    ensures Replace(s, pat, rep) == s
    decreases |s|
  {
    if |s| >= |pat| {
      assert !OccursAt(s, pat, 0);
      forall i | 0 <= i <= |s[1..]| ensures !OccursAt(s[1..], pat, i) {
        if i + |pat| <= |s[1..]| {
          assert s[1..][i..i + |pat|] == s[i + 1..i + 1 + |pat|];
        }
        assert !OccursAt(s, pat, i + 1);
      }
      ReplaceAbsent(s[1..], pat, rep);
    }
  }

  /** Replacing a string by itself changes nothing. */
  lemma {:induction false} ReplaceSelf(s: string, w: string)
    ensures Replace(s, w, w) == s
    decreases |s|
  {
    if w == [] {
      if s != [] {
        ReplaceSelf(s[1..], w);
        assert s == [s[0]] + s[1..];
      }
    } else if |s| < |w| {
    } else if s[..|w|] == w {
      ReplaceSelf(s[|w|..], w);
      assert s == s[..|w|] + s[|w|..];
    } else {
      ReplaceSelf(s[1..], w);
      assert s == [s[0]] + s[1..];
    }
  }

  /** str.join: the parts separated by sep. */
  function Join(sep: string, parts: seq<string>): string {
    if parts == [] then []
    else if |parts| == 1 then parts[0]
    else Join(sep, parts[..|parts| - 1]) + sep + parts[|parts| - 1]
  }

  /** Concatenation regroups freely. */
  lemma ConcatAssoc(a: string, b: string, c: string)
    ensures a + (b + c) == (a + b) + c
  {
  }
}
