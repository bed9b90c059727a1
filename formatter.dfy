/**
 * The template formatter of mnamer/metadata.py: a regular-expression
 * substitution of tokens `{key[index]:dd}` over a template, each token
 * rendered by a `string.Formatter` subclass against the record's `as_dict()`,
 * title-casing for the name-like keys, a default template per variant and a
 * final pass of the (uninterpreted) padding clean-up helper.
 */
module Formatting {
  import opened Values
  import opened Text
  import opened Meta

  /**
   * A token the pattern `({(\w+)(?:\[[\w:]+\])?(?:\:\d{1,2})?})` matched: the
   * word key, the bracket modifier, and the digits after the colon ("" when
   * there is no colon).
   */
  datatype Token = Token(key: string, index: Option<string>, spec: string)

  /** The text a token was matched from: its head (brace, key, modifier) and its tail (spec, brace). */
  function TokenText(tok: Token): string {
    Head(tok.key, tok.index) + Tail(tok.spec)
  }

  function Head(key: string, index: Option<string>): string {
    "{" + key + (if index.Some? then "[" + index.value + "]" else "")
  }

  function Tail(spec: string): string {
    (if spec != "" then ":" + spec else "") + "}"
  }

  predicate AllWord(s: string, cc: CharClasses) { forall i :: 0 <= i < |s| ==> cc.isWord(s[i]) }

  predicate IndexChar(c: char, cc: CharClasses) { cc.isWord(c) || c == ':' }

  predicate SpecChars(spec: string, cc: CharClasses) {
    |spec| <= 2 && forall i :: 0 <= i < |spec| ==> cc.isDigit(spec[i])
  }

  /** A token the pattern can produce: a non-empty word key, a non-empty `[\w:]+` modifier, at most two digits. */
  predicate WellFormed(tok: Token, cc: CharClasses) {
    && tok.key != [] && AllWord(tok.key, cc)
    && (tok.index.Some? ==> tok.index.value != [] && forall i :: 0 <= i < |tok.index.value| ==> IndexChar(tok.index.value[i], cc))
    && SpecChars(tok.spec, cc)
  }

  predicate IsPrefix(p: string, t: string) { |p| <= |t| && t[..|p|] == p }

  lemma PrefixJoin(a: string, b: string, t: string)
    requires IsPrefix(a, t) && IsPrefix(b, t[|a|..])
    ensures IsPrefix(a + b, t)
  {
    assert t[..|a| + |b|] == t[..|a|] + t[|a|..][..|b|];
  }

  /** The end of the run of word characters that starts at i. */
  function WordEnd(t: string, i: nat, cc: CharClasses): (j: nat)
    requires i <= |t|
    ensures i <= j <= |t|
    ensures forall k :: i <= k < j ==> cc.isWord(t[k])
    ensures j < |t| ==> !cc.isWord(t[j])
    decreases |t| - i
  {
    if i < |t| && cc.isWord(t[i]) then WordEnd(t, i + 1, cc) else i
  }

  /** The end of the run of `[\w:]` characters that starts at i. */
  function IndexEnd(t: string, i: nat, cc: CharClasses): (j: nat)
    requires i <= |t|
    ensures i <= j <= |t|
    ensures forall k :: i <= k < j ==> IndexChar(t[k], cc)
    ensures j < |t| ==> !IndexChar(t[j], cc)
    decreases |t| - i
  {
    if i < |t| && IndexChar(t[i], cc) then IndexEnd(t, i + 1, cc) else i
  }

  /** The optional `:d` or `:dd` and the closing brace, from position j on; the result is the digits. */
  function SpecPart(t: string, j: nat, cc: CharClasses): (r: Option<string>)
    requires j <= |t|
    ensures r.Some? ==> SpecChars(r.value, cc) && IsPrefix(Tail(r.value), t[j..])
  {
    if j < |t| && t[j] == '}' then
      assert t[j..][..1] == "}";
      Some("")
    else if j + 3 < |t| && t[j] == ':' && cc.isDigit(t[j + 1]) && cc.isDigit(t[j + 2]) && t[j + 3] == '}' then
      assert t[j..][..4] == [':', t[j + 1], t[j + 2], '}'];
      Some(t[j + 1..j + 3])
    else if j + 2 < |t| && t[j] == ':' && cc.isDigit(t[j + 1]) && t[j + 2] == '}' then
      assert t[j..][..3] == [':', t[j + 1], '}'];
      Some([t[j + 1]])
    else None
  }

  /** The match of the token pattern at the start of t, if any. */
  function MatchAt(t: string, cc: CharClasses): (r: Option<Token>)
    ensures r.Some? ==> WellFormed(r.value, cc) && IsPrefix(TokenText(r.value), t)
  {
    if t == [] || t[0] != '{' then None
    else
      var k := WordEnd(t, 1, cc);
      if k == 1 then None
      else if k < |t| && t[k] == '[' then MatchIndexed(t, k, IndexEnd(t, k + 1, cc), cc)
      else MatchPlain(t, k, cc)
  }

  /** A match whose key t[1..k] is followed by a modifier running to m. */
  function MatchIndexed(t: string, k: nat, m: nat, cc: CharClasses): (r: Option<Token>)
    requires 1 < k < m <= |t| && t[0] == '{' && t[k] == '['
    requires forall i :: 1 <= i < k ==> cc.isWord(t[i])
    requires forall i :: k < i < m ==> IndexChar(t[i], cc)
    ensures r.Some? ==> WellFormed(r.value, cc) && IsPrefix(TokenText(r.value), t)
  {
    if m == k + 1 || m == |t| || t[m] != ']' then None
    else
      var spec := SpecPart(t, m + 1, cc);
      if spec.None? then None
      else
        var key, idx := t[1..k], t[k + 1..m];
        assert t[..m + 1] == Head(key, Some(idx)) by {
          assert t[..m + 1] == [t[0]] + t[1..k] + [t[k]] + t[k + 1..m] + [t[m]];
        }
        PrefixJoin(Head(key, Some(idx)), Tail(spec.value), t);
        Some(Token(key, Some(idx), spec.value))
  }

  /** A match whose key t[1..k] has no modifier. */
  function MatchPlain(t: string, k: nat, cc: CharClasses): (r: Option<Token>)
    requires 1 < k <= |t| && t[0] == '{'
    requires forall i :: 1 <= i < k ==> cc.isWord(t[i])
    ensures r.Some? ==> WellFormed(r.value, cc) && IsPrefix(TokenText(r.value), t)
  {
    var spec := SpecPart(t, k, cc);
    if spec.None? then None
    else
      var key := t[1..k];
      assert t[..k] == Head(key, None) by {
        assert t[..k] == [t[0]] + t[1..k];
      }
      PrefixJoin(Head(key, None), Tail(spec.value), t);
      Some(Token(key, None, spec.value))
  }

  /** The keys `_format_repl` title-cases. */
  predicate TitleKey(key: string) {
    key == "name" || key == "series" || key == "synopsis" || key == "title"
  }

  /** `s.rjust(w, c)`. */
  function PadLeft(s: string, w: nat, c: char): (r: string)
    ensures |r| == if w <= |s| then |s| else w
    ensures r[|r| - |s|..] == s
    ensures forall k :: 0 <= k < |r| - |s| ==> r[k] == c
  {
    if w <= |s| then s else [c] + PadLeft(s, w - 1, c)
  }

  /** `s.ljust(w, c)`. */
  function PadRight(s: string, w: nat, c: char): (r: string)
    ensures |r| == if w <= |s| then |s| else w
    ensures r[..|s|] == s
    ensures forall k :: |s| <= k < |r| ==> r[k] == c
  {
    if w <= |s| then s else PadRight(s, w - 1, c) + [c]
  }

  /**
   * `format(value, spec)` for a spec of at most two digits: for an int a
   * leading '0' pads with zeros after the sign, otherwise with spaces on the
   * left; a str is padded with spaces on the right. Other objects, a str with
   * the '0' flag and non-ASCII digits are left to `formatOther`, which
   * returns a string and so never raises.
   */
  function FormatValue(v: Value, spec: string, h: Helpers): string {
    if spec == "" then PyStr(Some(v), h)
    else if !IsDigits(spec) then h.formatOther(v, spec)
    else
      match v
      case Int(i) =>
        if spec[0] == '0' then
          var w := DigitsValue(spec[1..]);
          if i < 0 then "-" + PadLeft(NatToString(-i), if w == 0 then 0 else w - 1, '0')
          else PadLeft(NatToString(i), w, '0')
        else PadLeft(IntToString(i), DigitsValue(spec), ' ')
      case Str(s) =>
        if spec[0] == '0' then h.formatOther(v, spec) else PadRight(s, DigitsValue(spec), ' ')
      case _ => h.formatOther(v, spec)
  }

  /** PY_SSIZE_T_MAX on a 64-bit platform: the largest field number the format-string parser reads. */
  const PySsizeMax: nat := 0x7fff_ffff_ffff_ffff

  /** A field number the parser rejects with "Too many decimal digits in format string". */
  predicate TooManyDigits(key: string) {
    IsDigits(key) && DigitsValue(key) > PySsizeMax
  }

  /**
   * `get_field` then `get_value`: a key of digits is a field number that
   * indexes the absent positional arguments (TypeError), unless it is too
   * large for the parser (ValueError); any other key is looked up with ""
   * as default.
   */
  function Lookup(d: map<string, Option<Value>>, key: string, cc: CharClasses): (r: Result<Option<Value>>)
    ensures r.Err? ==> forall i :: 0 <= i < |key| ==> cc.isDigit(key[i])
    ensures r.Err? ==> r.error == (if TooManyDigits(key) then ValueError else TypeError)
    ensures r.Ok? && key in d ==> r.value == d[key]
    ensures r.Ok? && key !in d ==> !Truthy(r.value)
  {
    if forall i :: 0 <= i < |key| ==> cc.isDigit(key[i]) then
      Err(if TooManyDigits(key) then ValueError else TypeError)
    else Ok(if key in d then d[key] else Some(Str("")))
  }

  /**
   * Field numbers up to PY_SSIZE_T_MAX reach `args[key]` and raise
   * TypeError; one more raises ValueError in the parser.
   */
  lemma LookupFieldNumber(d: map<string, Option<Value>>, cc: CharClasses)
    requires cc.Sane()
    ensures Lookup(d, NatToString(PySsizeMax), cc) == Err(TypeError)
    ensures Lookup(d, NatToString(PySsizeMax + 1), cc) == Err(ValueError)
  {
    LookupDigits(d, NatToString(PySsizeMax), cc);
    LookupDigits(d, NatToString(PySsizeMax + 1), cc);
  }

  lemma LookupDigits(d: map<string, Option<Value>>, key: string, cc: CharClasses)
    requires cc.Sane() && IsDigits(key)
    ensures Lookup(d, key, cc) == Err(if DigitsValue(key) > PySsizeMax then ValueError else TypeError)
  {
    forall i | 0 <= i < |key| ensures cc.isDigit(key[i]) {
      assert IsAscii(key[i]);
    }
  }

  /**
   * `_format_repl` for one match: `as_dict()` first, then the token is
   * formatted by `_MetaFormatter` (a falsy value gives ""), then title-cased
   * for the name-like keys.
   */
  function Repl(variant: Variant, rec: Record, tok: Token, h: Helpers): Result<string> {
    var d :- AsDict(variant, rec);
    var v :- Lookup(d, tok.key, h.cc);
    var w :- if tok.index.Some? then h.index(v, tok.index.value) else Ok(v);
    Ok(TitleIf(tok.key, Rendered(w, tok.spec, h), h))
  }

  /** `format_field`: a falsy value renders as "", any other through `format`. */
  function Rendered(v: Option<Value>, spec: string, h: Helpers): string {
    if Truthy(v) then FormatValue(v.value, spec, h) else ""
  }

  function TitleIf(key: string, s: string, h: Helpers): string {
    if TitleKey(key) then h.titleCase(s) else s
  }

  /** `re.sub(pattern, self._format_repl, t)`: matches replaced left to right, all other text copied. */
  function Substitute(variant: Variant, rec: Record, t: string, h: Helpers): Result<string>
    decreases |t|
  {
    if t == [] then Ok("")
    else match MatchAt(t, h.cc)
      case Some(tok) =>
        var s :- Repl(variant, rec, tok, h);
        var rest :- Substitute(variant, rec, t[|TokenText(tok)|..], h);
        Ok(s + rest)
      case None =>
        var rest :- Substitute(variant, rec, t[1..], h);
        Ok([t[0]] + rest)
  }

  /** The template used when none (or an empty one) is given. */
  function DefaultTemplate(variant: Variant): string {
    match variant
    case EpisodeMetadata => "{series}" + " - " + "{season:02}" + "x" + "{episode:02}" + " - " + "{title}"
    case _ => "{name}" + " (" + "{year}" + ")"
  }

  /** `format(meta, spec)` (and `str(meta)` with spec None): the base class refuses. */
  function Format(variant: Variant, rec: Record, spec: Option<string>, h: Helpers): (r: Result<string>)
    ensures variant == BaseMetadata ==> r == Err(NotImplemented)
  {
    if variant == BaseMetadata then Err(NotImplemented)
    else
      var t := if spec.None? || spec.value == "" then DefaultTemplate(variant) else spec.value;
      var s :- Substitute(variant, rec, t, h);
      Ok(h.fixPadding(s))
  }

  // ---------------------------------------------------------------------------
  // properties

  lemma {:induction false} WordEndAt(t: string, i: nat, j: nat, cc: CharClasses)
    requires i <= j < |t|
    requires forall k :: i <= k < j ==> cc.isWord(t[k])
    requires !cc.isWord(t[j])
    ensures WordEnd(t, i, cc) == j
    decreases j - i
  {
    if i < j {
      WordEndAt(t, i + 1, j, cc);
    }
  }

  lemma {:induction false} IndexEndAt(t: string, i: nat, j: nat, cc: CharClasses)
    requires i <= j < |t|
    requires forall k :: i <= k < j ==> IndexChar(t[k], cc)
    requires !IndexChar(t[j], cc)
    ensures IndexEnd(t, i, cc) == j
    decreases j - i
  {
    if i < j {
      IndexEndAt(t, i + 1, j, cc);
    }
  }

  /** The colon-and-digits part and the closing brace are recognised exactly. */
  lemma SpecPartComplete(t: string, j: nat, spec: string, cc: CharClasses)
    requires cc.Sane() && SpecChars(spec, cc)
    requires j <= |t| && IsPrefix(Tail(spec), t[j..])
    ensures SpecPart(t, j, cc) == Some(spec)
  {
    var tail := Tail(spec);
    forall k | 0 <= k < |tail| ensures t[j + k] == tail[k] {
      assert t[j..][..|tail|][k] == tail[k];
    }
    if |spec| == 2 {
      assert tail == [':', spec[0], spec[1], '}'];
      assert t[j] == ':' && t[j + 1] == spec[0] && t[j + 2] == spec[1] && t[j + 3] == '}';
      assert t[j + 1..j + 3] == spec;
    } else if |spec| == 1 {
      assert tail == [':', spec[0], '}'];
      assert t[j] == ':' && t[j + 1] == spec[0] && t[j + 2] == '}';
      assert !cc.isDigit('}') by { assert IsAscii('}'); }
      assert [t[j + 1]] == spec;
    } else {
      assert tail == "}";
    }
  }

  /** The text of a well-formed token opens with its head, which opens with a brace and the key. */
  lemma HeadOf(tok: Token, t: string, cc: CharClasses)
    requires cc.Sane() && WellFormed(tok, cc) && IsPrefix(TokenText(tok), t)
    ensures IsPrefix(Head(tok.key, tok.index), t)
    ensures IsPrefix(Tail(tok.spec), t[|Head(tok.key, tok.index)|..])
    ensures 1 + |tok.key| < |t| && t[0] == '{' && t[1..1 + |tok.key|] == tok.key
    ensures WordEnd(t, 1, cc) == 1 + |tok.key|
    ensures t[1 + |tok.key|] == '[' <==> tok.index.Some?
  {
    var head := Head(tok.key, tok.index);
    var n := |tok.key|;
    var text := TokenText(tok);
    assert t[..|head|] == t[..|text|][..|head|];
    assert t[|head|..][..|Tail(tok.spec)|] == t[..|text|][|head|..];
    HeadStart(tok.key, tok.index);
    PrefixChars(text, t);
    assert t[0] == '{' by { assert text[0] == head[0]; }
    forall k | 1 <= k < 1 + n ensures t[k] == tok.key[k - 1] && cc.isWord(t[k]) {
      assert text[k] == head[k];
    }
    assert t[1..1 + n] == tok.key;
    var next := if tok.index.Some? then '[' else Tail(tok.spec)[0];
    assert 1 + n < |t| && t[1 + n] == next by {
      assert text[1 + n] == next;
    }
    assert !cc.isWord(next) by { assert IsAscii('[') && IsAscii(':') && IsAscii('}'); }
    WordEndAt(t, 1, 1 + n, cc);
  }

  /** A head opens with a brace and the key; a bracket follows exactly when there is a modifier. */
  lemma HeadStart(key: string, index: Option<string>)
    ensures var head := Head(key, index);
      && |head| >= 1 + |key| && head[0] == '{'
      && (forall k :: 1 <= k < 1 + |key| ==> head[k] == key[k - 1])
      && (index.Some? ==> |head| > 1 + |key| && head[1 + |key|] == '[')
      && (index.None? ==> |head| == 1 + |key|)
  {
  }

  lemma PrefixChars(p: string, t: string)
    requires IsPrefix(p, t)
    ensures forall k :: 0 <= k < |p| ==> t[k] == p[k]
  {
    forall k | 0 <= k < |p| ensures t[k] == p[k] {
      assert t[..|p|][k] == t[k];
    }
  }

  /** The characters of a head with a modifier: brace, key, bracket, modifier, bracket. */
  lemma HeadChars(key: string, idx: string)
    ensures var head := Head(key, Some(idx));
      && |head| == 3 + |key| + |idx|
      && head[1 + |key|] == '[' && head[2 + |key| + |idx|] == ']'
      && forall k :: 0 <= k < |idx| ==> head[2 + |key| + k] == idx[k]
  {
    var head := Head(key, Some(idx));
    assert head == ("{" + key) + ("[" + idx + "]");
  }

  /** A modifier in the text of a token is followed by the closing bracket. */
  lemma IndexOf(key: string, idx: string, t: string)
    requires IsPrefix(Head(key, Some(idx)), t)
    ensures 2 + |key| + |idx| < |t| && t[2 + |key| + |idx|] == ']'
    ensures t[2 + |key|..2 + |key| + |idx|] == idx
  {
    var n := |key|;
    HeadChars(key, idx);
    PrefixChars(Head(key, Some(idx)), t);
    forall k | 0 <= k < |idx| ensures t[2 + n..2 + n + |idx|][k] == idx[k] {
      assert t[2 + n + k] == Head(key, Some(idx))[2 + n + k];
    }
  }

  /** The run of modifier characters ends at the closing bracket. */
  lemma IndexRun(t: string, i: nat, idx: string, cc: CharClasses)
    requires i + |idx| < |t| && t[i..i + |idx|] == idx && t[i + |idx|] == ']'
    requires !IndexChar(']', cc) && forall k :: 0 <= k < |idx| ==> IndexChar(idx[k], cc)
    ensures IndexEnd(t, i, cc) == i + |idx|
  {
    forall k | i <= k < i + |idx| ensures IndexChar(t[k], cc) {
      assert t[k] == t[i..i + |idx|][k - i];
    }
    IndexEndAt(t, i, i + |idx|, cc);
  }

  /**
   * The matcher finds exactly the tokens the pattern describes: any
   * well-formed token whose text starts t is the match at t.
   */
  lemma MatchComplete(tok: Token, t: string, cc: CharClasses)
    requires cc.Sane() && WellFormed(tok, cc) && IsPrefix(TokenText(tok), t)
    ensures MatchAt(t, cc) == Some(tok)
  {
    if tok.index.Some? {
      MatchCompleteIndexed(tok, t, cc);
    } else {
      MatchCompletePlain(tok, t, cc);
    }
  }

  lemma MatchCompleteIndexed(tok: Token, t: string, cc: CharClasses)
    requires cc.Sane() && WellFormed(tok, cc) && IsPrefix(TokenText(tok), t) && tok.index.Some?
    ensures MatchAt(t, cc) == Some(tok)
  {
    HeadOf(tok, t, cc);
    var n, idx := |tok.key|, tok.index.value;
    assert !IndexChar(']', cc) by { assert IsAscii(']'); }
    IndexOf(tok.key, idx, t);
    IndexRun(t, 2 + n, idx, cc);
    assert |Head(tok.key, tok.index)| == 3 + n + |idx|;
    SpecPartComplete(t, 3 + n + |idx|, tok.spec, cc);
    MatchIndexedAt(t, 1 + n, 2 + n + |idx|, tok.spec, cc);
  }

  /** The modifier closed by a bracket and a valid spec after it make the indexed match. */
  lemma MatchIndexedAt(t: string, k: nat, m: nat, spec: string, cc: CharClasses)
    requires 1 < k < m < |t| && t[0] == '{' && t[k] == '[' && t[m] == ']' && m != k + 1
    requires WordEnd(t, 1, cc) == k && IndexEnd(t, k + 1, cc) == m
    requires SpecPart(t, m + 1, cc) == Some(spec)
    ensures MatchAt(t, cc) == Some(Token(t[1..k], Some(t[k + 1..m]), spec))
  {
  }

  lemma MatchCompletePlain(tok: Token, t: string, cc: CharClasses)
    requires cc.Sane() && WellFormed(tok, cc) && IsPrefix(TokenText(tok), t) && tok.index.None?
    ensures MatchAt(t, cc) == Some(tok)
  {
    HeadOf(tok, t, cc);
    assert |Head(tok.key, tok.index)| == 1 + |tok.key|;
    SpecPartComplete(t, 1 + |tok.key|, tok.spec, cc);
  }

  /** A character that does not open a token is copied. */
  lemma SubstituteChar(variant: Variant, rec: Record, t: string, h: Helpers)
    requires t != [] && t[0] != '{'
    ensures Substitute(variant, rec, t, h) ==
      if Substitute(variant, rec, t[1..], h).Ok? then Ok([t[0]] + Substitute(variant, rec, t[1..], h).value)
      else Substitute(variant, rec, t[1..], h)
  {
  }

  /** A '{' that starts no token is copied like any other character. */
  lemma SubstituteUnmatched(variant: Variant, rec: Record, t: string, h: Helpers)
    requires t != [] && MatchAt(t, h.cc).None?
    ensures Substitute(variant, rec, t, h) ==
      if Substitute(variant, rec, t[1..], h).Ok? then Ok([t[0]] + Substitute(variant, rec, t[1..], h).value)
      else Substitute(variant, rec, t[1..], h)
  {
  }

  /** Text without an opening brace is copied through unchanged. */
  lemma {:induction false} SubstituteLiteral(variant: Variant, rec: Record, lit: string, rest: string, h: Helpers)
    requires forall i :: 0 <= i < |lit| ==> lit[i] != '{'
    ensures Substitute(variant, rec, lit + rest, h) ==
      if Substitute(variant, rec, rest, h).Ok? then Ok(lit + Substitute(variant, rec, rest, h).value)
      else Substitute(variant, rec, rest, h)
    decreases |lit|
  {
    if lit != [] {
      var t := lit + rest;
      assert t[0] == lit[0] && t[1..] == lit[1..] + rest;
      SubstituteChar(variant, rec, t, h);
      SubstituteLiteral(variant, rec, lit[1..], rest, h);
      if Substitute(variant, rec, rest, h).Ok? {
        ConcatAssoc([lit[0]], lit[1..], Substitute(variant, rec, rest, h).value);
        assert [lit[0]] + lit[1..] == lit;
      }
    } else {
      assert lit + rest == rest;
      if Substitute(variant, rec, rest, h).Ok? {
        assert lit + Substitute(variant, rec, rest, h).value == Substitute(variant, rec, rest, h).value;
      }
    }
  }

  /** A well-formed token is replaced by its rendering and the text after it is processed on. */
  lemma SubstituteToken(variant: Variant, rec: Record, tok: Token, rest: string, h: Helpers)
    requires h.cc.Sane() && WellFormed(tok, h.cc)
    ensures Substitute(variant, rec, TokenText(tok) + rest, h) ==
      match Repl(variant, rec, tok, h)
      case Err(e) => Err(e)
      case Ok(s) =>
        if Substitute(variant, rec, rest, h).Ok? then Ok(s + Substitute(variant, rec, rest, h).value)
        else Substitute(variant, rec, rest, h)
  {
    var t := TokenText(tok) + rest;
    assert t[..|TokenText(tok)|] == TokenText(tok);
    MatchComplete(tok, t, h.cc);
    assert t[|TokenText(tok)|..] == rest;
  }

  /**
   * A token naming a field: a failing `extension` is raised, otherwise the
   * field's value is rendered (a falsy one as ""), title-cased for name,
   * series, synopsis and title.
   */
  lemma ReplField(variant: Variant, rec: Record, f: Field, spec: string, h: Helpers)
    requires h.cc.Sane() && f in FieldsOf(variant)
    ensures Repl(variant, rec, Token(Key(f), None, spec), h) ==
      if Extension(rec).Err? then Err(Extension(rec).error)
      else Ok(TitleIf(Key(f), Rendered(At(rec, f), spec, h), h))
  {
    if Extension(rec).Ok? {
      var d := AsDict(variant, rec).value;
      FieldLookup(variant, rec, f, h.cc);
      assert Lookup(d, Key(f), h.cc) == Ok(At(rec, f));
    }
  }

  /** In `as_dict()` a field's attribute name is found, and is not a key of digits. */
  lemma FieldLookup(variant: Variant, rec: Record, f: Field, cc: CharClasses)
    requires cc.Sane() && f in FieldsOf(variant) && Extension(rec).Ok?
    ensures Lookup(AsDict(variant, rec).value, Key(f), cc) == Ok(At(rec, f))
  {
    KeyInitial(f);
    assert !cc.isDigit(Key(f)[0]) by { assert IsAscii(Key(f)[0]); }
    NamedAt(rec, FieldsOf(variant), f);
    KeyInjective(f, f);
  }

  /** A field token as a piece of a template, when `extension` succeeds. */
  lemma FieldPiece(variant: Variant, rec: Record, f: Field, spec: string, h: Helpers)
    requires h.cc.Sane() && f in FieldsOf(variant) && Extension(rec).Ok?
    ensures RenderPiece(variant, rec, Tok(Token(Key(f), None, spec)), h) == Ok(TitleIf(Key(f), Rendered(At(rec, f), spec, h), h))
  {
    ReplField(variant, rec, f, spec, h);
  }

  /**
   * The other tokens: a failing `extension` is raised first, then a key of
   * digits raises TypeError, or ValueError when it is too large a field
   * number; "extension" renders the extension and a key
   * that names no field renders "".
   */
  lemma ReplOther(variant: Variant, rec: Record, tok: Token, h: Helpers)
    requires tok.index.None?
    ensures Extension(rec).Err? ==> Repl(variant, rec, tok, h) == Err(Extension(rec).error)
    ensures Extension(rec).Ok? && (forall i :: 0 <= i < |tok.key| ==> h.cc.isDigit(tok.key[i])) ==>
      Repl(variant, rec, tok, h) == Err(if TooManyDigits(tok.key) then ValueError else TypeError)
    ensures Repl(variant, rec, tok, h).Ok? && tok.key == "extension" ==>
      Repl(variant, rec, tok, h).value == Rendered(Extension(rec).value, tok.spec, h)
    ensures (Repl(variant, rec, tok, h).Ok? && tok.key != "extension" &&
             (FieldNamed(tok.key).None? || !HasField(variant, FieldNamed(tok.key).value))) ==>
      Repl(variant, rec, tok, h).value == TitleIf(tok.key, "", h)
  {
    if Repl(variant, rec, tok, h).Ok? && tok.key != "extension" &&
       (FieldNamed(tok.key).None? || !HasField(variant, FieldNamed(tok.key).value)) {
      var d := AsDict(variant, rec).value;
      forall f | f in FieldsOf(variant) ensures Key(f) != tok.key {
        KeyInjective(f, f);
      }
      assert tok.key !in d.Keys;
      assert !Truthy(Some(Str("")));
    }
  }

  /** Another class's field is missing from `as_dict`, so it renders as "" (title-cased for the name-like keys). */
  lemma ReplForeign(variant: Variant, rec: Record, f: Field, spec: string, h: Helpers)
    requires h.cc.Sane() && !HasField(variant, f) && Extension(rec).Ok?
    ensures Repl(variant, rec, Token(Key(f), None, spec), h) == Ok(TitleIf(Key(f), "", h))
  {
    KeyInjective(f, f);
    KeyInitial(f);
    assert !h.cc.isDigit(Key(f)[0]) by { assert IsAscii(Key(f)[0]); }
    ReplOther(variant, rec, Token(Key(f), None, spec), h);
  }

  /** `{season:02}`: a number below ten gets one leading zero, a larger one is written in full. */
  lemma ZeroPadTwo(n: nat, h: Helpers)
    ensures FormatValue(Int(n), "02", h) == if n < 10 then "0" + NatToString(n) else NatToString(n)
  {
    assert IsDigits("02");
    assert "02"[1..] == "2";
    assert DigitsValue("2") == 2 by { assert "2"[..0] == ""; }
    var s := NatToString(n);
    if n < 10 {
      assert |s| == 1;
    } else {
      assert |s| >= 2;
    }
  }

  /** A template written as a sequence of literal texts and tokens. */
  datatype Piece = Lit(text: string) | Tok(tok: Token)

  function PiecesText(ps: seq<Piece>): string {
    if ps == [] then ""
    else (match ps[0] case Lit(s) => s case Tok(tok) => TokenText(tok)) + PiecesText(ps[1..])
  }

  /** Literal texts hold no opening brace and tokens are well-formed. */
  predicate PlainPieces(ps: seq<Piece>, cc: CharClasses) {
    forall i :: 0 <= i < |ps| ==> PlainPiece(ps[i], cc)
  }

  predicate PlainPiece(p: Piece, cc: CharClasses) {
    match p
    case Lit(s) => forall k :: 0 <= k < |s| ==> s[k] != '{'
    case Tok(tok) => WellFormed(tok, cc)
  }

  /** The pieces rendered in order: literal text as is, tokens through `_format_repl`; the first error wins. */
  function RenderPieces(variant: Variant, rec: Record, ps: seq<Piece>, h: Helpers): Result<string> {
    if ps == [] then Ok("")
    else
      var a :- RenderPiece(variant, rec, ps[0], h);
      var r :- RenderPieces(variant, rec, ps[1..], h);
      Ok(a + r)
  }

  function RenderPiece(variant: Variant, rec: Record, p: Piece, h: Helpers): Result<string> {
    match p
    case Lit(s) => Ok(s)
    case Tok(tok) => Repl(variant, rec, tok, h)
  }

  /** Rendering the pieces from i on: the piece at i, then the rest. */
  lemma RenderStep(variant: Variant, rec: Record, ps: seq<Piece>, i: nat, h: Helpers, a: string, r: string)
    requires i < |ps| && RenderPiece(variant, rec, ps[i], h) == Ok(a) && RenderPieces(variant, rec, ps[i + 1..], h) == Ok(r)
    ensures RenderPieces(variant, rec, ps[i..], h) == Ok(a + r)
  {
    assert ps[i..][0] == ps[i] && ps[i..][1..] == ps[i + 1..];
  }

  /**
   * Only the tokens of a template are substituted: a template made of
   * literal text without braces and well-formed tokens renders piece by piece.
   */
  lemma {:induction false} SubstitutePieces(variant: Variant, rec: Record, ps: seq<Piece>, h: Helpers)
    requires h.cc.Sane() && PlainPieces(ps, h.cc)
    ensures Substitute(variant, rec, PiecesText(ps), h) == RenderPieces(variant, rec, ps, h)
  {
    if ps != [] {
      assert PlainPieces(ps[1..], h.cc) by {
        forall i | 0 <= i < |ps[1..]| ensures ps[1..][i] == ps[i + 1] { }
      }
      SubstitutePieces(variant, rec, ps[1..], h);
      match ps[0]
      case Lit(s) => SubstituteLiteral(variant, rec, s, PiecesText(ps[1..]), h);
      case Tok(tok) => SubstituteToken(variant, rec, tok, PiecesText(ps[1..]), h);
    }
  }

  /** A key of ASCII letters makes a well-formed token with any spec of at most two digits. */
  lemma LetterKey(key: string, spec: string, cc: CharClasses)
    requires cc.Sane() && key != [] && forall i :: 0 <= i < |key| ==> IsAsciiLower(key[i])
    requires SpecChars(spec, cc)
    ensures WellFormed(Token(key, None, spec), cc)
  {
    forall i | 0 <= i < |key| ensures cc.isWord(key[i]) {
      assert IsAscii(key[i]) && IsAsciiWord(key[i]);
    }
  }

  const MoviePieces: seq<Piece> := [Tok(Token("name", None, "")), Lit(" ("), Tok(Token("year", None, "")), Lit(")")]

  lemma MovieTemplate(cc: CharClasses)
    requires cc.Sane()
    ensures DefaultTemplate(MovieMetadata) == PiecesText(MoviePieces)
    ensures PlainPieces(MoviePieces, cc)
  {
    LetterKey("name", "", cc);
    LetterKey("year", "", cc);
    MovieText();
  }

  lemma MovieText()
    ensures DefaultTemplate(MovieMetadata) == PiecesText(MoviePieces)
  {
    assert TokenText(Token("year", None, "")) == "{year}" by {
      assert Head("year", None) == "{year";
    }
    assert TokenText(Token("name", None, "")) == "{name}" by {
      assert Head("name", None) == "{name";
    }
    assert MoviePieces[4..] == [];
    Regroup("{name}", " (", "{year}", ")");
  }

  /** The movie default "{name} ({year})": the title-cased name, then the year in parentheses. */
  lemma DefaultMovie(rec: Record, spec: Option<string>, h: Helpers)
    requires h.cc.Sane()
    requires spec.None? || spec.value == ""
    ensures Extension(rec).Err? ==> Format(MovieMetadata, rec, spec, h) == Err(Extension(rec).error)
    ensures Extension(rec).Ok? ==>
      Format(MovieMetadata, rec, spec, h) ==
      Ok(h.fixPadding(h.titleCase(Rendered(At(rec, Name), "", h)) + " (" + Rendered(At(rec, Year), "", h) + ")"))
  {
    MovieTemplate(h.cc);
    SubstitutePieces(MovieMetadata, rec, MoviePieces, h);
    MovieRender(rec, h);
  }

  lemma MovieRender(rec: Record, h: Helpers)
    requires h.cc.Sane()
    ensures Extension(rec).Err? ==> RenderPieces(MovieMetadata, rec, MoviePieces, h) == Err(Extension(rec).error)
    ensures Extension(rec).Ok? ==>
      RenderPieces(MovieMetadata, rec, MoviePieces, h) ==
      Ok(h.titleCase(Rendered(At(rec, Name), "", h)) + " (" + Rendered(At(rec, Year), "", h) + ")")
  {
    var ps := MoviePieces;
    DefaultKeys();
    ReplField(MovieMetadata, rec, Name, "", h);
    ReplField(MovieMetadata, rec, Year, "", h);
    if Extension(rec).Ok? {
      var n := h.titleCase(Rendered(At(rec, Name), "", h));
      var y := Rendered(At(rec, Year), "", h);
      assert RenderPiece(MovieMetadata, rec, ps[2], h) == Ok(y);
      assert RenderPiece(MovieMetadata, rec, ps[0], h) == Ok(n);
      assert RenderPieces(MovieMetadata, rec, ps[4..], h) == Ok("");
      RenderStep(MovieMetadata, rec, ps, 3, h, ")", "");
      RenderStep(MovieMetadata, rec, ps, 2, h, y, ")" + "");
      RenderStep(MovieMetadata, rec, ps, 1, h, " (", y + (")" + ""));
      RenderStep(MovieMetadata, rec, ps, 0, h, n, " (" + (y + (")" + "")));
      assert ps[0..] == ps;
      Regroup(n, " (", y, ")");
    }
  }

  const EpisodePieces: seq<Piece> := [
    Tok(Token("series", None, "")), Lit(" - "), Tok(Token("season", None, "02")), Lit("x"),
    Tok(Token("episode", None, "02")), Lit(" - "), Tok(Token("title", None, ""))]

  lemma EpisodeTemplate(cc: CharClasses)
    requires cc.Sane()
    ensures DefaultTemplate(EpisodeMetadata) == PiecesText(EpisodePieces)
    ensures PlainPieces(EpisodePieces, cc)
  {
    var ps := EpisodePieces;
    assert SpecChars("02", cc) by { assert IsAscii('0') && IsAscii('2'); }
    forall i | 0 <= i < |ps| ensures PlainPiece(ps[i], cc) {
      if i == 0 {
        LetterKey("series", "", cc);
      } else if i == 2 {
        LetterKey("season", "02", cc);
      } else if i == 4 {
        LetterKey("episode", "02", cc);
      } else if i == 6 {
        LetterKey("title", "", cc);
      }
    }
    EpisodeText();
  }

  lemma EpisodeText()
    ensures DefaultTemplate(EpisodeMetadata) == PiecesText(EpisodePieces)
  {
    var ps := EpisodePieces;
    assert TokenText(Token("title", None, "")) == "{title}" by {
      assert Head("title", None) == "{title";
    }
    assert TokenText(Token("episode", None, "02")) == "{episode:02}" by {
      assert Head("episode", None) == "{episode";
      assert Tail("02") == ":02}";
    }
    assert TokenText(Token("season", None, "02")) == "{season:02}" by {
      assert Head("season", None) == "{season";
      assert Tail("02") == ":02}";
    }
    assert TokenText(Token("series", None, "")) == "{series}" by {
      assert Head("series", None) == "{series";
    }
    assert ps[7..] == [];
    Regroup7("{series}", " - ", "{season:02}", "x", "{episode:02}", " - ", "{title}");
  }

  /**
   * The episode default "{series} - {season:02}x{episode:02} - {title}":
   * the title-cased series and title around the season and episode numbers
   * padded to two digits.
   */
  lemma DefaultEpisode(rec: Record, spec: Option<string>, h: Helpers)
    requires h.cc.Sane()
    requires spec.None? || spec.value == ""
    ensures Extension(rec).Err? ==> Format(EpisodeMetadata, rec, spec, h) == Err(Extension(rec).error)
    ensures Extension(rec).Ok? ==>
      Format(EpisodeMetadata, rec, spec, h) ==
      Ok(h.fixPadding(
        h.titleCase(Rendered(At(rec, Series), "", h)) + " - " + Rendered(At(rec, Season), "02", h)
        + "x" + Rendered(At(rec, EpisodeNumber), "02", h) + " - " + h.titleCase(Rendered(At(rec, Title), "", h))))
  {
    EpisodeTemplate(h.cc);
    SubstitutePieces(EpisodeMetadata, rec, EpisodePieces, h);
    EpisodeRender(rec, h);
  }

  lemma EpisodeRender(rec: Record, h: Helpers)
    requires h.cc.Sane()
    ensures Extension(rec).Err? ==> RenderPieces(EpisodeMetadata, rec, EpisodePieces, h) == Err(Extension(rec).error)
    ensures Extension(rec).Ok? ==>
      RenderPieces(EpisodeMetadata, rec, EpisodePieces, h) ==
      Ok(h.titleCase(Rendered(At(rec, Series), "", h)) + " - " + Rendered(At(rec, Season), "02", h)
        + "x" + Rendered(At(rec, EpisodeNumber), "02", h) + " - " + h.titleCase(Rendered(At(rec, Title), "", h)))
  {
    var ps := EpisodePieces;
    DefaultKeys();
    if Extension(rec).Err? {
      ReplField(EpisodeMetadata, rec, Series, "", h);
    } else {
      var a := h.titleCase(Rendered(At(rec, Series), "", h));
      var b := Rendered(At(rec, Season), "02", h);
      var c := Rendered(At(rec, EpisodeNumber), "02", h);
      var d := h.titleCase(Rendered(At(rec, Title), "", h));
      FieldPiece(EpisodeMetadata, rec, Series, "", h);
      FieldPiece(EpisodeMetadata, rec, Season, "02", h);
      EpisodeTokens();
      EpisodeTail(rec, h);
      RenderStep(EpisodeMetadata, rec, ps, 2, h, b, "x" + (c + (" - " + (d + ""))));
      RenderStep(EpisodeMetadata, rec, ps, 1, h, " - ", b + ("x" + (c + (" - " + (d + "")))));
      RenderStep(EpisodeMetadata, rec, ps, 0, h, a, " - " + (b + ("x" + (c + (" - " + (d + ""))))));
      assert ps[0..] == ps;
      Regroup7(a, " - ", b, "x", c, " - ", d);
    }
  }

  /** The field tokens of the episode default, by field. */
  lemma EpisodeTokens()
    ensures EpisodePieces[0] == Tok(Token(Key(Series), None, ""))
    ensures EpisodePieces[2] == Tok(Token(Key(Season), None, "02"))
    ensures EpisodePieces[4] == Tok(Token(Key(EpisodeNumber), None, "02"))
    ensures EpisodePieces[6] == Tok(Token(Key(Title), None, ""))
  {
    DefaultKeys();
  }

  /** The pieces after the season number render to "x", the episode number, " - " and the title. */
  lemma EpisodeTail(rec: Record, h: Helpers)
    requires h.cc.Sane() && Extension(rec).Ok?
    ensures RenderPieces(EpisodeMetadata, rec, EpisodePieces[3..], h) ==
      Ok("x" + (Rendered(At(rec, EpisodeNumber), "02", h) + (" - " + (h.titleCase(Rendered(At(rec, Title), "", h)) + ""))))
  {
    var ps := EpisodePieces;
    var c := Rendered(At(rec, EpisodeNumber), "02", h);
    var d := h.titleCase(Rendered(At(rec, Title), "", h));
    DefaultKeys();
    FieldPiece(EpisodeMetadata, rec, EpisodeNumber, "02", h);
    FieldPiece(EpisodeMetadata, rec, Title, "", h);
    EpisodeTokens();
    assert RenderPieces(EpisodeMetadata, rec, ps[7..], h) == Ok("");
    RenderStep(EpisodeMetadata, rec, ps, 6, h, d, "");
    RenderStep(EpisodeMetadata, rec, ps, 5, h, " - ", d + "");
    RenderStep(EpisodeMetadata, rec, ps, 4, h, c, " - " + (d + ""));
    RenderStep(EpisodeMetadata, rec, ps, 3, h, "x", c + (" - " + (d + "")));
  }

  lemma Regroup7(a: string, b: string, c: string, d: string, e: string, f: string, g: string)
    ensures a + (b + (c + (d + (e + (f + (g + "")))))) == a + b + c + d + e + f + g
  {
  }

  /** The keys of the default templates, and which of them are title-cased. */
  lemma DefaultKeys()
    ensures Key(Name) == "name" && TitleKey("name")
    ensures Key(Year) == "year" && !TitleKey("year")
    ensures Key(Series) == "series" && TitleKey("series")
    ensures Key(Season) == "season" && !TitleKey("season")
    ensures Key(EpisodeNumber) == "episode" && !TitleKey("episode")
    ensures Key(Title) == "title" && TitleKey("title")
  {
  }


  /** Attribute names start with a lower-case ASCII letter. */
  lemma KeyInitial(f: Field)
    ensures Key(f) != [] && IsAsciiLower(Key(f)[0])
  {
  }

  lemma Regroup(a: string, b: string, c: string, d: string)
    ensures a + (b + (c + (d + ""))) == a + b + c + d
  {
  }

  /** A template without tokens is copied through before the padding clean-up; `as_dict` is never consulted. */
  lemma FormatLiteral(variant: Variant, rec: Record, t: string, h: Helpers)
    requires variant != BaseMetadata && t != ""
    requires forall i :: 0 <= i < |t| ==> t[i] != '{'
    ensures Format(variant, rec, Some(t), h) == Ok(h.fixPadding(t))
  {
    SubstituteLiteral(variant, rec, t, "", h);
    assert t + "" == t;
  }
}
