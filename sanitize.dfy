/**
 * `sanitize_filename` of mnamer/__main__.py: literal replacements first,
 * then, in scene mode, NFKD normalisation, whitespace runs to dots, a
 * filter keeping dots, slashes and word characters, and lower case; in
 * normal mode whitespace runs to single spaces and a filter keeping
 * spaces, word characters and `?!.,_()[]-/`; finally surrounding
 * whitespace is stripped.
 */
module Sanitizing {
  import opened Values
  import opened Text

  /** The leading run of whitespace removed. */
  function DropSpace(s: string, cc: CharClasses): (r: string)
    ensures |r| <= |s| && r == s[|s| - |r|..]
    ensures r != [] ==> !cc.isSpace(r[0])
  {
    if s != [] && cc.isSpace(s[0]) then DropSpace(s[1..], cc) else s
  }

  /** `re.sub(r'\s+', rep, s)`: every maximal run of whitespace becomes rep, scanning from the left. */
  function Collapse(s: string, rep: char, cc: CharClasses): (r: string)
    ensures !cc.isSpace(rep) ==> forall i :: 0 <= i < |r| ==> !cc.isSpace(r[i])
    decreases |s|
  {
    if s == [] then []
    else if cc.isSpace(s[0]) then [rep] + Collapse(DropSpace(s, cc), rep, cc)
    else [s[0]] + Collapse(s[1..], rep, cc)
  }

  /** `re.sub(r'[^…]', '', s)`: the characters outside the class are removed. */
  function Filter(s: string, keep: char -> bool): (r: string)
    ensures |r| <= |s|
    ensures forall i :: 0 <= i < |r| ==> keep(r[i])
  {
    if s == [] then [] else (if keep(s[0]) then [s[0]] else []) + Filter(s[1..], keep)
  }

  /** The class `[ \d\w?!.,_()\[\]\-/]` kept in normal mode. */
  predicate NormalKeep(c: char, cc: CharClasses) {
    c == ' ' || cc.isDigit(c) || cc.isWord(c) || c in "?!.,_()[]-/"
  }

  /** The class `[.\d\w/]` kept in scene mode. */
  predicate SceneKeep(c: char, cc: CharClasses) {
    c == '.' || cc.isDigit(c) || cc.isWord(c) || c == '/'
  }

  /** The replacements in the mapping's order, each `str.replace` applied to the result of the one before. */
  function ReplaceAll(s: string, reps: seq<(string, string)>): string {
    if reps == [] then s
    else
      var last := reps[|reps| - 1];
      Replace(ReplaceAll(s, reps[..|reps| - 1]), last.0, last.1)
  }

  /** What follows the replacements, in either mode, up to the final `strip()`. */
  function Cleaned(s: string, scene: bool, nfkd: string -> string, cc: CharClasses): string {
    if scene then Lower(Filter(Collapse(nfkd(s), '.', cc), c => SceneKeep(c, cc)))
    else Filter(Collapse(s, ' ', cc), c => NormalKeep(c, cc))
  }

  /** The name `sanitize_filename` returns, or the exception it raises. */
  function SanitizeSpec(filename: string, scene: bool, replacements: Option<seq<(string, string)>>,
                        nfkd: string -> string, cc: CharClasses): Result<string> {
    if replacements.None? then Err(TypeError)
    else Ok(Strip(Cleaned(ReplaceAll(filename, replacements.value), scene, nfkd, cc), cc))
  }

  /** The character facts the example below needs. */
  predicate ExampleChars(cc: CharClasses) {
    cc.isSpace(' ') && !cc.isSpace('a') && !cc.isSpace('#') && !cc.isSpace('b')
    && NormalKeep(' ', cc) && NormalKeep('a', cc) && !NormalKeep('#', cc) && NormalKeep('b', cc)
  }

  lemma ExampleCharsSane(cc: CharClasses)
    requires cc.Sane()
    ensures ExampleChars(cc)
  {
    assert IsAscii(' ') && IsAscii('a') && IsAscii('#') && IsAscii('b');
  }

  lemma CollapseExample(cc: CharClasses)
    requires ExampleChars(cc)
    ensures Collapse("a # b", ' ', cc) == "a # b"
  {
    assert Collapse("b", ' ', cc) == "b" by { assert "b"[1..] == []; }
    assert DropSpace(" b", cc) == "b" by { assert " b"[1..] == "b"; }
    assert Collapse(" b", ' ', cc) == " b";
    assert Collapse("# b", ' ', cc) == "# b" by { assert "# b"[1..] == " b"; }
    assert DropSpace(" # b", cc) == "# b" by { assert " # b"[1..] == "# b"; }
    assert Collapse(" # b", ' ', cc) == " # b";
    assert "a # b"[1..] == " # b";
  }

  lemma CollapseDoubleExample(cc: CharClasses)
    requires ExampleChars(cc)
    ensures Collapse("a  b", ' ', cc) == "a b"
  {
    assert Collapse("b", ' ', cc) == "b" by { assert "b"[1..] == []; }
    assert DropSpace(" b", cc) == "b" by { assert " b"[1..] == "b"; }
    assert DropSpace("  b", cc) == "b" by { assert "  b"[1..] == " b"; }
    assert Collapse("  b", ' ', cc) == " b";
    assert "a  b"[1..] == "  b";
  }

  /** One character outside the class between two kept pieces is all the filter removes. */
  lemma {:induction false} FilterDropOne(p: string, c: char, q: string, keep: char -> bool)
    requires forall i :: 0 <= i < |p| ==> keep(p[i])
    requires forall i :: 0 <= i < |q| ==> keep(q[i])
    requires !keep(c)
    ensures Filter(p + [c] + q, keep) == p + q
  {
    var cq := [c] + q;
    FilterAppend([c], q, keep);
    FilterKeepsAll(q, keep);
    assert Filter([c], keep) == [];
    assert Filter(cq, keep) == q;
    FilterAppend(p, cq, keep);
    FilterKeepsAll(p, keep);
    ConcatAssoc(p, [c], q);
  }

  lemma FilterExample(cc: CharClasses)
    requires ExampleChars(cc)
    ensures Filter("a # b", c => NormalKeep(c, cc)) == "a  b"
    ensures Filter("a b", c => NormalKeep(c, cc)) == "a b"
  {
    var keep := c => NormalKeep(c, cc);
    FilterDropOne("a ", '#', " b", keep);
    assert "a " + ['#'] + " b" == "a # b" && "a " + " b" == "a  b";
    FilterKeepsAll("a b", keep);
  }

  lemma CleanedExample(nfkd: string -> string, cc: CharClasses)
    requires ExampleChars(cc)
    ensures Cleaned("a # b", false, nfkd, cc) == "a  b"
    ensures Cleaned("a  b", false, nfkd, cc) == "a b"
  {
    CollapseExample(cc);
    CollapseDoubleExample(cc);
    FilterExample(cc);
  }

  lemma StripExample(cc: CharClasses)
    requires ExampleChars(cc)
    ensures Strip("a  b", cc) == "a  b" && Strip("a b", cc) == "a b"
  {
    assert StripLeft("a  b", cc) == "a  b" && StripRight("a  b", cc) == "a  b";
    assert StripLeft("a b", cc) == "a b" && StripRight("a b", cc) == "a b";
  }

  /** With no replacements, normal mode is the clean-up followed by `strip`. */
  lemma SanitizeNoReplacements(s: string, t: string, nfkd: string -> string, cc: CharClasses)
    requires Strip(Cleaned(s, false, nfkd, cc), cc) == t
    ensures SanitizeSpec(s, false, Some([]), nfkd, cc) == Ok(t)
  {
  }

  /**
   * Normal mode is not idempotent: a character the filter drops between two
   * spaces leaves a double space that only a second pass collapses.
   */
  lemma NormalNotIdempotent(nfkd: string -> string, cc: CharClasses)
    requires cc.Sane()
    ensures SanitizeSpec("a # b", false, Some([]), nfkd, cc) == Ok("a  b")
    ensures SanitizeSpec("a  b", false, Some([]), nfkd, cc) == Ok("a b")
  {
    ExampleCharsSane(cc);
    CleanedExample(nfkd, cc);
    StripExample(cc);
    SanitizeNoReplacements("a # b", "a  b", nfkd, cc);
    SanitizeNoReplacements("a  b", "a b", nfkd, cc);
  }

  /**
   * `sanitize_filename(filename, scene_mode, replacements)`; `nfkd` is
   * `unicodedata.normalize('NFKD', ·)`. Iterating a missing mapping raises
   * TypeError.
   */
  method Sanitize(filename: string, scene: bool, replacements: Option<seq<(string, string)>>,
                  nfkd: string -> string, cc: CharClasses) returns (r: Result<string>)
    ensures replacements.None? ==> r == Err(TypeError)
    ensures replacements.Some? ==> r == Ok(Strip(Cleaned(ReplaceAll(filename, replacements.value), scene, nfkd, cc), cc))
    ensures r == SanitizeSpec(filename, scene, replacements, nfkd, cc)
  {
    if replacements.None? {
      return Err(TypeError);
    }
    var reps := replacements.value;
    var name := filename;
    for i := 0 to |reps|
      invariant name == ReplaceAll(filename, reps[..i])
    {
      assert reps[..i + 1][..i] == reps[..i];
      name := Replace(name, reps[i].0, reps[i].1);
    }
    assert reps[..|reps|] == reps;
    if scene {
      name := nfkd(name);
      name := Collapse(name, '.', cc);
      name := Filter(name, c => SceneKeep(c, cc));
      name := Lower(name);
    } else {
      name := Collapse(name, ' ', cc);
      name := Filter(name, c => NormalKeep(c, cc));
    }
    return Ok(Strip(name, cc));
  }

  /** Every character of a stripped string was a character of the string. */
  lemma StripKeeps(s: string, cc: CharClasses, P: char -> bool)
    requires forall i :: 0 <= i < |s| ==> P(s[i])
    ensures forall i :: 0 <= i < |Strip(s, cc)| ==> P(Strip(s, cc)[i])
  {
    var a := StripSlice(s, cc);
    forall i | 0 <= i < |Strip(s, cc)| ensures P(Strip(s, cc)[i]) {
      assert Strip(s, cc)[i] == s[a + i];
    }
  }

  /**
   * Normal mode: only spaces, word and digit characters and `?!.,_()[]-/`
   * remain, and the result neither starts nor ends with whitespace.
   */
  lemma NormalChars(s: string, nfkd: string -> string, cc: CharClasses)
    ensures forall i :: 0 <= i < |Strip(Cleaned(s, false, nfkd, cc), cc)| ==> NormalKeep(Strip(Cleaned(s, false, nfkd, cc), cc)[i], cc)
    ensures var r := Strip(Cleaned(s, false, nfkd, cc), cc); r != [] ==> !cc.isSpace(r[0]) && !cc.isSpace(r[|r| - 1])
  {
    var f := Filter(Collapse(s, ' ', cc), c => NormalKeep(c, cc));
    assert forall i :: 0 <= i < |f| ==> NormalKeep(f[i], cc);
    StripKeeps(f, cc, c => NormalKeep(c, cc));
  }

  /** A character scene mode keeps: a dot, a slash, or a word character that is not an ASCII capital. */
  predicate SceneChar(c: char, cc: CharClasses) {
    (c == '.' || c == '/' || cc.isWord(c)) && !IsAsciiUpper(c) && !cc.isSpace(c)
  }

  /**
   * Scene mode: no whitespace is left (runs became single dots), only dots,
   * slashes and word characters (digits among them) remain, and no ASCII
   * letter is upper case.
   */
  lemma SceneChars(s: string, nfkd: string -> string, cc: CharClasses)
    requires cc.Sane()
    ensures forall i :: 0 <= i < |Strip(Cleaned(s, true, nfkd, cc), cc)| ==> SceneChar(Strip(Cleaned(s, true, nfkd, cc), cc)[i], cc)
  {
    var f := Filter(Collapse(nfkd(s), '.', cc), c => SceneKeep(c, cc));
    var l := Lower(f);
    forall i | 0 <= i < |l| ensures SceneChar(l[i], cc) {
      assert SceneKeep(f[i], cc);
      assert l[i] == LowerChar(f[i]);
      if IsAsciiUpper(f[i]) {
        assert IsAscii(l[i]) && IsAsciiLower(l[i]);
      }
    }
    StripKeeps(l, cc, c => SceneChar(c, cc));
  }

  /** Replacements that map each string to itself leave the name as it is. */
  lemma {:induction false} ReplaceAllSelf(s: string, reps: seq<(string, string)>)
    requires forall i :: 0 <= i < |reps| ==> reps[i].0 == reps[i].1
    ensures ReplaceAll(s, reps) == s
  {
    if reps != [] {
      ReplaceAllSelf(s, reps[..|reps| - 1]);
      ReplaceSelf(s, reps[|reps| - 1].0);
    }
  }

  /** A replacement whose text is absent from the name as the earlier replacements left it changes nothing. */
  lemma ReplaceAllAbsent(s: string, reps: seq<(string, string)>, k: string, v: string)
    requires k != []
    requires forall i :: 0 <= i <= |ReplaceAll(s, reps)| ==> !OccursAt(ReplaceAll(s, reps), k, i)
    ensures ReplaceAll(s, reps + [(k, v)]) == ReplaceAll(s, reps)
  {
    assert (reps + [(k, v)])[..|reps|] == reps;
    ReplaceAbsent(ReplaceAll(s, reps), k, v);
  }

  /** A name without whitespace passes the whitespace substitution unchanged. */
  lemma {:induction false} CollapseNoSpace(s: string, rep: char, cc: CharClasses)
    requires forall i :: 0 <= i < |s| ==> !cc.isSpace(s[i])
    ensures Collapse(s, rep, cc) == s
    decreases |s|
  {
    if s != [] {
      CollapseNoSpace(s[1..], rep, cc);
      assert s == [s[0]] + s[1..];
    }
  }

  /**
   * The filter works character by character: a kept character survives,
   * any other is dropped, and the pieces of a name are filtered apart.
   */
  lemma {:induction false} FilterAppend(a: string, b: string, keep: char -> bool)
    ensures Filter(a + b, keep) == Filter(a, keep) + Filter(b, keep)
    ensures |a| == 1 ==> Filter(a, keep) == if keep(a[0]) then a else []
    decreases |a|
  {
    if a == [] {
      assert a + b == b;
    } else {
      var k := if keep(a[0]) then [a[0]] else [];
      assert (a + b)[0] == a[0] && (a + b)[1..] == a[1..] + b;
      FilterAppend(a[1..], b, keep);
      calc {
        Filter(a + b, keep);
        k + Filter(a[1..] + b, keep);
        k + (Filter(a[1..], keep) + Filter(b, keep));
        (k + Filter(a[1..], keep)) + Filter(b, keep);
        Filter(a, keep) + Filter(b, keep);
      }
      if |a| == 1 {
        assert a[1..] == [];
      }
    }
  }

  /** Dropping the leading whitespace of a name with a non-whitespace character leaves what follows alone. */
  lemma {:induction false} DropSpaceAppend(a: string, b: string, cc: CharClasses)
    requires a != [] && !cc.isSpace(a[|a| - 1])
    ensures DropSpace(a + b, cc) == DropSpace(a, cc) + b
    decreases |a|
  {
    if cc.isSpace(a[0]) {
      assert a[1..][|a| - 2] == a[|a| - 1];
      assert (a + b)[1..] == a[1..] + b;
      DropSpaceAppend(a[1..], b, cc);
    }
  }

  /** A run of whitespace followed by the end of the name or by a non-whitespace character is dropped whole. */
  lemma {:induction false} DropSpaceRun(w: string, b: string, cc: CharClasses)
    requires forall i :: 0 <= i < |w| ==> cc.isSpace(w[i])
    requires b == [] || !cc.isSpace(b[0])
    ensures DropSpace(w + b, cc) == b
    decreases |w|
  {
    if w == [] {
      assert w + b == b;
    } else {
      assert (w + b)[0] == w[0] && (w + b)[1..] == w[1..] + b;
      DropSpaceRun(w[1..], b, cc);
    }
  }

  /**
   * `re.sub(r'\s+', rep, ·)`: a maximal run of whitespace becomes exactly
   * one rep, and a name that ends in a non-whitespace character is
   * substituted apart from what follows it.
   */
  lemma CollapseRun(w: string, b: string, rep: char, cc: CharClasses)
    requires w != [] && forall i :: 0 <= i < |w| ==> cc.isSpace(w[i])
    requires b == [] || !cc.isSpace(b[0])
    ensures Collapse(w + b, rep, cc) == [rep] + Collapse(b, rep, cc)
  {
    assert (w + b)[0] == w[0];
    DropSpaceRun(w, b, cc);
  }

  /** Whitespace substitution of a name ending in a non-whitespace character does not reach into what follows. */
  lemma {:induction false} CollapseAppend(a: string, b: string, rep: char, cc: CharClasses)
    requires a == [] || !cc.isSpace(a[|a| - 1])
    ensures Collapse(a + b, rep, cc) == Collapse(a, rep, cc) + Collapse(b, rep, cc)
    decreases |a|, 1
  {
    if a == [] {
      assert a + b == b;
    } else if cc.isSpace(a[0]) {
      CollapseAppendRun(a, b, rep, cc);
    } else {
      assert (a + b)[0] == a[0] && (a + b)[1..] == a[1..] + b;
      CollapseAppend(a[1..], b, rep, cc);
      ConcatAssoc([a[0]], Collapse(a[1..], rep, cc), Collapse(b, rep, cc));
    }
  }

  /** CollapseAppend for a name that starts with whitespace. */
  lemma {:induction false} CollapseAppendRun(a: string, b: string, rep: char, cc: CharClasses)
    requires a != [] && cc.isSpace(a[0]) && !cc.isSpace(a[|a| - 1])
    ensures Collapse(a + b, rep, cc) == Collapse(a, rep, cc) + Collapse(b, rep, cc)
    decreases |a|, 0
  {
    DropSpaceAppend(a, b, cc);
    var d := DropSpace(a, cc);
    DropSpaceKeepsLast(a, cc);
    CollapseAppend(d, b, rep, cc);
    CollapseLead(a, b, d, rep, cc);
  }

  /** Leading whitespace is dropped no further than a final non-whitespace character. */
  lemma {:induction false} DropSpaceKeepsLast(a: string, cc: CharClasses)
    requires a != [] && !cc.isSpace(a[|a| - 1])
    ensures DropSpace(a, cc) != [] && DropSpace(a, cc)[|DropSpace(a, cc)| - 1] == a[|a| - 1]
    decreases |a|
  {
    if cc.isSpace(a[0]) {
      assert a[1..][|a| - 2] == a[|a| - 1];
      DropSpaceKeepsLast(a[1..], cc);
    }
  }

  /** The step of CollapseAppendRun once the leading run is known to be dropped apart from what follows. */
  lemma CollapseLead(a: string, b: string, d: string, rep: char, cc: CharClasses)
    requires a != [] && cc.isSpace(a[0])
    requires DropSpace(a, cc) == d && DropSpace(a + b, cc) == d + b
    requires Collapse(d + b, rep, cc) == Collapse(d, rep, cc) + Collapse(b, rep, cc)
    ensures Collapse(a + b, rep, cc) == Collapse(a, rep, cc) + Collapse(b, rep, cc)
  {
    assert (a + b)[0] == a[0];
    ConcatAssoc([rep], Collapse(d, rep, cc), Collapse(b, rep, cc));
  }

  /** A name made only of kept characters passes the filter unchanged. */
  lemma {:induction false} FilterKeepsAll(s: string, keep: char -> bool)
    requires forall i :: 0 <= i < |s| ==> keep(s[i])
    ensures Filter(s, keep) == s
  {
    if s != [] {
      FilterKeepsAll(s[1..], keep);
      assert s == [s[0]] + s[1..];
    }
  }
}
