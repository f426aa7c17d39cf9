/**
 * The few pieces of JavaScript string semantics the handlers rely on:
 * request fields that may be strings or numbers and their truthiness, `String.prototype.trim`, `slice(0, n)`,
 * `split(sep)[0]` and the decimal rendering of a number in a template string.
 * Strings are sequences of code points; JavaScript counts UTF-16 code units.
 */
module JsText {
  import opened Wrappers

  /** `!!field` for a string-valued request field: present and not "". */
  predicate Truthy(field: Option<string>)
  {
    field.Some? && field.value != ""
  }

  /** `!!field` for a number-valued request field: present and not 0. */
  predicate TruthyNumber(field: Option<int>)
  {
    field.Some? && field.value != 0
  }

  /**
   * A request-body field that JSON may deliver as a string or as a number
   * (integers only here); the handlers read such fields without checking
   * their type.
   */
  datatype JsonScalar = JsonString(text: string) | JsonNumber(number: int)

  /** `!!field` for a field that may be a string or a number: present, and neither "" nor 0. */
  predicate TruthyScalar(field: Option<JsonScalar>)
  {
    field.Some? && (match field.value case JsonString(t) => t != "" case JsonNumber(n) => n != 0)
  }

  /**
   * `String(v)`: the text a `String` schema path stores for the value and
   * that a template literal shows for it.
   */
  function ScalarText(v: JsonScalar): (r: string)
    ensures v.JsonString? ==> r == v.text
    ensures v.JsonNumber? ==> r == NumberText(v.number)
  {
    match v
    case JsonString(t) => t
    case JsonNumber(n) => NumberText(n)
  }

  /** The decimal rendering of an integer, with a leading `-` when it is negative. */
  function NumberText(n: int): (r: string)
    ensures |r| >= 1
    ensures n >= 0 ==> r == Decimal(n)
    ensures n < 0 ==> r == "-" + Decimal(-n)
  {
    if n < 0 then "-" + Decimal(-n) else Decimal(n)
  }

  /**
   * The characters JavaScript's `trim` strips and its regular expression
   * class `\s` matches: the WhiteSpace and LineTerminator code points of
   * ECMAScript (tab, line feed, vertical tab, form feed, carriage return,
   * space, no-break space, ogham space mark, the spaces U+2000 to U+200A,
   * line and paragraph separators, narrow no-break space, medium
   * mathematical space, ideographic space and the byte order mark).
   */
  predicate IsWhitespace(c: char)
  {
    c == '\t' || c == '\n' || c == '\U{000B}' || c == '\U{000C}' || c == '\r' || c == ' '
    || c == '\U{00A0}' || c == '\U{1680}' || ('\U{2000}' <= c <= '\U{200A}')
    || c == '\U{2028}' || c == '\U{2029}' || c == '\U{202F}' || c == '\U{205F}'
    || c == '\U{3000}' || c == '\U{FEFF}'
  }

  /** Every character of `s` is whitespace (so `s.trim() === ""`). */
  predicate IsBlank(s: string)
  {
    forall i :: 0 <= i < |s| ==> IsWhitespace(s[i])
  }

  /** `s.trimStart()`: the suffix left after dropping leading whitespace. */
  function TrimStart(s: string): (r: string)
    ensures |r| <= |s| && r == s[|s| - |r|..]
    ensures IsBlank(s[..|s| - |r|])
    ensures r == [] || !IsWhitespace(r[0])
  {
    if s != [] && IsWhitespace(s[0]) then
      var r := TrimStart(s[1..]);
      assert s[1..][..|s[1..]| - |r|] == s[1..|s| - |r|];
      r
    else
      s
  }

  /** `s.trimEnd()`: the prefix left after dropping trailing whitespace. */
  function TrimEnd(s: string): (r: string)
    ensures |r| <= |s| && r == s[..|r|]
    ensures IsBlank(s[|r|..])
    ensures r == [] || !IsWhitespace(r[|r| - 1])
  {
    if s != [] && IsWhitespace(s[|s| - 1]) then
      var p := s[..|s| - 1];
      var r := TrimEnd(p);
      assert p[..|r|] == s[..|r|];
      assert s[|r|..] == p[|r|..] + [s[|s| - 1]];
      assert IsBlank(s[|r|..]) by {
        forall i | 0 <= i < |s[|r|..]| ensures IsWhitespace(s[|r|..][i]) {
          if i < |p[|r|..]| {
            assert s[|r|..][i] == p[|r|..][i];
          }
        }
      }
      r
    else
      s
  }

  /**
   * `s.trim()`: drops the leading and the trailing whitespace; the result
   * neither starts nor ends with whitespace and is empty exactly when `s`
   * is blank.
   */
  function Trim(s: string): (r: string)
    ensures |r| <= |s|
    ensures r == [] || (!IsWhitespace(r[0]) && !IsWhitespace(r[|r| - 1]))
    ensures r == [] <==> IsBlank(s)
  {
    var t := TrimStart(s);
    var r := TrimEnd(t);
    assert r != [] ==> r[0] == t[0];
    assert r == [] ==> IsBlank(s) by {
      if r == [] {
        assert s == s[..|s| - |t|] + t[|r|..];
      }
    }
    r
  }

  /** What `Trim` removed is whitespace on both sides of an unchanged middle part. */
  lemma {:induction false} TrimIsMiddle(s: string)
    ensures |s| - |TrimStart(s)| + |Trim(s)| <= |s|
    ensures Trim(s) == s[|s| - |TrimStart(s)|..][..|Trim(s)|]
    ensures IsBlank(s[..|s| - |TrimStart(s)|]) && IsBlank(s[|s| - |TrimStart(s)| + |Trim(s)|..])
  {
    var t := TrimStart(s);
    var r := Trim(s);
    var k := |s| - |t|;
    assert r == TrimEnd(t);
    assert s[k + |r|..] == t[|r|..];
  }

  /** Trimming is idempotent. */
  lemma TrimIdempotent(s: string)
    ensures Trim(Trim(s)) == Trim(s)
  {
    var t := Trim(s);
    assert t == [] || (!IsWhitespace(t[0]) && !IsWhitespace(t[|t| - 1]));
    TrimOfTrimmed(t);
    assert Trim(t) == t;
  }

  /** A string that neither starts nor ends with whitespace is its own trim. */
  lemma TrimOfTrimmed(s: string)
    requires s == [] || (!IsWhitespace(s[0]) && !IsWhitespace(s[|s| - 1]))
    ensures Trim(s) == s
  {
    assert TrimStart(s) == s;
    assert TrimEnd(s) == s;
  }

  /** Leading blank padding is all `trimStart` removes from a string that starts with a non-whitespace character. */
  lemma {:induction false} TrimStartPadding(pad: string, x: string)
    requires IsBlank(pad) && x != [] && !IsWhitespace(x[0])
    ensures TrimStart(pad + x) == x
  {
    if pad == [] {
      assert pad + x == x;
    } else {
      assert (pad + x)[1..] == pad[1..] + x;
      TrimStartPadding(pad[1..], x);
    }
  }

  /** Trailing blank padding is all `trimEnd` removes from a string that ends with a non-whitespace character. */
  lemma {:induction false} TrimEndPadding(x: string, pad: string)
    requires IsBlank(pad) && x != [] && !IsWhitespace(x[|x| - 1])
    ensures TrimEnd(x + pad) == x
  {
    if pad == [] {
      assert x + pad == x;
    } else {
      assert (x + pad)[..|x + pad| - 1] == x + pad[..|pad| - 1];
      TrimEndPadding(x, pad[..|pad| - 1]);
    }
  }

  /** Trimming blank padding off both ends gives back the padded string. */
  lemma TrimPadded(left: string, core: string, right: string)
    requires IsBlank(left) && IsBlank(right) && core != []
    requires !IsWhitespace(core[0]) && !IsWhitespace(core[|core| - 1])
    ensures Trim(left + core + right) == core
  {
    assert left + core + right == left + (core + right);
    TrimStartPadding(left, core + right);
    TrimEndPadding(core, right);
  }

  /** `s.slice(0, n)`: the first `n` characters, or all of `s` when it is shorter. */
  function Prefix(s: string, n: nat): (r: string)
    ensures |r| == if |s| <= n then |s| else n
    ensures r == s[..|r|]
  {
    if |s| <= n then s else s[..n]
  }

  /** `s.split(sep)[0]`: everything before the first `sep`, or all of `s`. */
  function BeforeFirst(s: string, sep: char): (r: string)
    ensures |r| <= |s| && r == s[..|r|]
    ensures sep !in r
    ensures |r| < |s| ==> s[|r|] == sep
  {
    if s == [] || s[0] == sep then [] else [s[0]] + BeforeFirst(s[1..], sep)
  }

  predicate IsDigit(c: char)
  {
    '0' <= c <= '9'
  }

  /** The decimal rendering of a non-negative integer, as `${n}` gives it. */
  function Decimal(n: nat): (r: string)
    ensures |r| >= 1
    ensures forall i :: 0 <= i < |r| ==> IsDigit(r[i])
    ensures |r| > 1 ==> r[0] != '0'
  {
    if n < 10 then ["0123456789"[n]] else Decimal(n / 10) + ["0123456789"[n % 10]]
  }

  /** The value of a string of decimal digits (an independent reading of `Decimal`). */
  function DigitsValue(s: string): nat
    requires forall i :: 0 <= i < |s| ==> IsDigit(s[i])
  {
    if s == [] then 0
    else
      var last := s[|s| - 1];
      assert IsDigit(last);
      DigitsValue(s[..|s| - 1]) * 10 + (last as int - '0' as int)
  }

  /** Reading back the decimal rendering of `n` gives `n`. */
  lemma {:induction false} DecimalRoundTrip(n: nat)
    ensures DigitsValue(Decimal(n)) == n
  {
    if n >= 10 {
      var s := Decimal(n);
      assert s[..|s| - 1] == Decimal(n / 10);
      DecimalRoundTrip(n / 10);
    }
  }

  /** Distinct numbers render as distinct strings. */
  lemma DecimalInjective(m: nat, n: nat)
    requires Decimal(m) == Decimal(n)
    ensures m == n
  {
    DecimalRoundTrip(m);
    DecimalRoundTrip(n);
  }
}
