/**
 * The few JavaScript built-ins the modelled code relies on, stated exactly
 * enough for the properties proved about it: `parseInt` with no radix,
 * `Number.prototype.toFixed(0)` on integral numbers, the string a template
 * literal makes of a missing property, truthiness of an optional string, and
 * `String.prototype.split` on a one-character separator.
 */
module JsBuiltins {
  import opened Wrappers

  /** A JavaScript number as far as this code can produce one: `NaN` or an integer. */
  datatype Number = NaN | Int(value: int)

  /** `a * b`; `NaN` is absorbing. */
  function Multiply(a: Number, b: Number): Number
  {
    if a.Int? && b.Int? then Int(a.value * b.value) else NaN
  }

  /** `${v}` in a template literal: an absent property prints as "undefined". */
  function Template(v: Option<string>): string
  {
    match v
    case Some(s) => s
    case None => "undefined"
  }

  /** `!!v` for a property holding a string or nothing. */
  predicate Truthy(v: Option<string>)
  {
    v.Some? && v.value != ""
  }

  // ---------------------------------------------------------------------
  // Decimal formatting: `String(n)` and `n.toFixed(0)` for an integral n
  // ---------------------------------------------------------------------

  predicate IsDecimalDigit(c: char)
  {
    '0' <= c <= '9'
  }

  function DecimalDigit(d: nat): (c: char)
    requires d < 10
    ensures IsDecimalDigit(c)
  {
    ['0', '1', '2', '3', '4', '5', '6', '7', '8', '9'][d]
  }

  /** The shortest decimal numeral of `n`. */
  function NatToString(n: nat): (s: string)
    ensures |s| >= 1
    ensures forall i :: 0 <= i < |s| ==> IsDecimalDigit(s[i])
  {
    if n < 10 then [DecimalDigit(n)] else NatToString(n / 10) + [DecimalDigit(n % 10)]
  }

  /** A leading minus sign for negative numbers, then the numeral of the magnitude. */
  function IntToString(i: int): string
  {
    if i < 0 then "-" + NatToString(-i) else NatToString(i)
  }

  /** `x.toFixed(0)` for a number produced by `Math.round`: "NaN" or the integer's numeral. */
  function ToFixed0(x: Number): string
  {
    match x
    case NaN => "NaN"
    case Int(v) => IntToString(v)
  }

  // ---------------------------------------------------------------------
  // parseInt(s) with no radix argument
  // ---------------------------------------------------------------------

  /** The StrWhiteSpaceChar set of ECMAScript: WhiteSpace (including every Zs character) and LineTerminator. */
  predicate IsJsWhitespace(c: char)
  {
    c == '\t' || c == '\n' || c == '\U{000B}' || c == '\U{000C}' || c == '\r' || c == ' '
    || c == '\U{00A0}' || c == '\U{1680}' || ('\U{2000}' <= c <= '\U{200A}')
    || c == '\U{2028}' || c == '\U{2029}' || c == '\U{202F}' || c == '\U{205F}'
    || c == '\U{3000}' || c == '\U{FEFF}'
  }

  function TrimStart(s: string): (t: string)
    ensures |t| <= |s| && t == s[|s| - |t|..]
    ensures t == [] || !IsJsWhitespace(t[0])
  {
    if s != [] && IsJsWhitespace(s[0]) then TrimStart(s[1..]) else s
  }

  /** A digit of radix 16 when `hex` holds, of radix 10 otherwise. */
  predicate IsDigit(c: char, hex: bool)
  {
    IsDecimalDigit(c) || (hex && ('a' <= c <= 'f' || 'A' <= c <= 'F'))
  }

  function DigitValue(c: char, hex: bool): (d: nat)
    requires IsDigit(c, hex)
    ensures d < (if hex then 16 else 10)
  {
    if IsDecimalDigit(c) then c as int - '0' as int
    else if 'a' <= c <= 'f' then c as int - 'a' as int + 10
    else c as int - 'A' as int + 10
  }

  /** The length of the longest prefix of `s` made of digits. */
  function DigitPrefixLength(s: string, hex: bool): (n: nat)
    ensures n <= |s|
    ensures forall i :: 0 <= i < n ==> IsDigit(s[i], hex)
    ensures n < |s| ==> !IsDigit(s[n], hex)
  {
    if s == [] || !IsDigit(s[0], hex) then 0 else 1 + DigitPrefixLength(s[1..], hex)
  }

  /** The value of a numeral, most significant digit first. */
  function DigitsValue(s: string, hex: bool): nat
    requires forall i :: 0 <= i < |s| ==> IsDigit(s[i], hex)
  {
    if s == [] then 0
    else DigitsValue(s[..|s| - 1], hex) * (if hex then 16 else 10) + DigitValue(s[|s| - 1], hex)
  }

  /** The longest digit prefix of `s` read as a number; NaN when `s` does not start with a digit. */
  function ParseDigits(s: string, hex: bool): (r: Number)
    ensures r.Int? ==> r.value >= 0
  {
    var n := DigitPrefixLength(s, hex);
    if n == 0 then NaN else Int(DigitsValue(s[..n], hex))
  }

  /** Text after an optional leading sign. */
  function StripSign(t: string): string
  {
    if t != [] && (t[0] == '-' || t[0] == '+') then t[1..] else t
  }

  predicate HasHexPrefix(u: string)
  {
    |u| >= 2 && u[0] == '0' && (u[1] == 'x' || u[1] == 'X')
  }

  function Negate(x: Number): Number
  {
    match x
    case NaN => NaN
    case Int(v) => Int(-v)
  }

  /**
   * `parseInt(s)`: skip leading white space, take an optional sign, switch
   * to radix 16 after a `0x`/`0X` prefix, then read the longest digit
   * prefix; with no digit at all the result is NaN. `-0` is represented by 0,
   * which every caller here prints as "0".
   */
  function ParseInt(s: string): Number
  {
    var t := TrimStart(s);
    var u := StripSign(t);
    var magnitude := if HasHexPrefix(u) then ParseDigits(u[2..], true) else ParseDigits(u, false);
    if t != [] && t[0] == '-' then Negate(magnitude) else magnitude
  }

  lemma {:induction false} DigitsValueOfNatToString(n: nat)
    ensures DigitsValue(NatToString(n), false) == n
  {
    var s := NatToString(n);
    if n >= 10 {
      DigitsValueOfNatToString(n / 10);
      assert s[..|s| - 1] == NatToString(n / 10);
    }
  }

  lemma DigitPrefixOfAllDigits(s: string, hex: bool)
    requires forall i :: 0 <= i < |s| ==> IsDigit(s[i], hex)
    ensures DigitPrefixLength(s, hex) == |s|
  {
  }

  lemma ParseDigitsOfNatToString(n: nat)
    ensures ParseDigits(NatToString(n), false) == Int(n)
  {
    var s := NatToString(n);
    DigitPrefixOfAllDigits(s, false);
    DigitsValueOfNatToString(n);
    assert s[..|s|] == s;
  }

  lemma TrimStartOfNonBlank(s: string)
    requires s != [] && !IsJsWhitespace(s[0])
    ensures TrimStart(s) == s
  {
  }

  /** parseInt reads back every numeral that toFixed(0) writes. */
  lemma ParseIntOfIntToString(i: int)
    ensures ParseInt(IntToString(i)) == Int(i)
  {
    var m: nat := if i < 0 then -i else i;
    var digits := NatToString(m);
    ParseDigitsOfNatToString(m);
    assert IsDecimalDigit(digits[0]);
    assert !HasHexPrefix(digits) by {
      if |digits| >= 2 {
        assert IsDecimalDigit(digits[1]);
      }
    }
    var s := IntToString(i);
    if i < 0 {
      assert s == "-" + digits;
      TrimStartOfNonBlank(s);
      assert s[1..] == digits;
      assert StripSign(s) == digits;
    } else {
      assert s == digits;
      TrimStartOfNonBlank(s);
      assert StripSign(s) == digits;
    }
  }

  /** parseInt of the decimal numerals of two integers multiplies to the numeral of their product. */
  lemma ToFixed0OfProduct(a: int, b: int)
    ensures ToFixed0(Multiply(ParseInt(IntToString(a)), ParseInt(IntToString(b)))) == IntToString(a * b)
  {
    ParseIntOfIntToString(a);
    ParseIntOfIntToString(b);
  }

  /** A fractional numeral is cut at the point. */
  lemma ParseIntOfFraction()
    ensures ParseInt("1.5") == Int(1)
  {
    TrimStartOfNonBlank("1.5");
    assert StripSign("1.5") == "1.5";
    assert DigitPrefixLength("1.5", false) == 1;
    assert "1.5"[..1] == "1";
  }

  /** A word, such as the GOP setting "auto", parses to NaN. */
  lemma ParseIntOfWord()
    ensures ParseInt("auto") == NaN
  {
    TrimStartOfNonBlank("auto");
    assert StripSign("auto") == "auto";
    assert DigitPrefixLength("auto", false) == 0;
  }

  /** A `0x` prefix switches to radix 16. */
  lemma ParseIntOfHex()
    ensures ParseInt("0x1A") == Int(26)
  {
    TrimStartOfNonBlank("0x1A");
    assert StripSign("0x1A") == "0x1A";
    assert "0x1A"[2..] == "1A";
    assert DigitPrefixLength("1A", true) == 2;
    assert "1A"[..2] == "1A";
    assert "1A"[..1] == "1";
    assert "1"[..0] == "";
    assert DigitsValue("1A", true) == 26;
    assert HasHexPrefix("0x1A");
    assert ParseDigits("1A", true) == Int(26);
  }

  // ---------------------------------------------------------------------
  // String.prototype.split(sep) for a one-character separator
  // ---------------------------------------------------------------------

  /** `s.split(sep)`: the maximal runs between separators; the empty string splits to [""]. */
  function Split(s: string, sep: char): (parts: seq<string>)
    ensures |parts| >= 1
    ensures forall k :: 0 <= k < |parts| ==> sep !in parts[k]
  {
    if s == [] then [""]
    else
      var rest := Split(s[1..], sep);
      if s[0] == sep then [""] + rest
      else [[s[0]] + rest[0]] + rest[1..]
  }

  /** `parts.join(sep)`. */
  function Join(parts: seq<string>, sep: char): string
    requires |parts| >= 1
  {
    if |parts| == 1 then parts[0] else parts[0] + [sep] + Join(parts[1..], sep)
  }

  lemma {:induction false} JoinSplit(s: string, sep: char)
    ensures Join(Split(s, sep), sep) == s
  {
    if s != [] {
      JoinSplit(s[1..], sep);
      var rest := Split(s[1..], sep);
      if s[0] == sep {
        assert ([""] + rest)[1..] == rest;
      } else {
        var parts := [[s[0]] + rest[0]] + rest[1..];
        if |rest| > 1 {
          assert parts[1..] == rest[1..];
          assert Join(rest, sep) == rest[0] + [sep] + Join(rest[1..], sep);
        }
      }
    }
  }

  /** Splitting a separator-free word followed by more text. */
  lemma {:induction false} SplitAfterWord(w: string, t: string, sep: char)
    requires sep !in w
    ensures Split(w + t, sep) == [w + Split(t, sep)[0]] + Split(t, sep)[1..]
  {
    var st := Split(t, sep);
    if w != [] {
      assert (w + t)[1..] == w[1..] + t;
      SplitAfterWord(w[1..], t, sep);
      var rest := Split(w[1..] + t, sep);
      assert rest == [w[1..] + st[0]] + st[1..];
      assert rest[0] == w[1..] + st[0];
      assert rest[1..] == st[1..];
      assert [w[0]] + (w[1..] + st[0]) == w + st[0];
    } else {
      assert w + t == t;
      assert w + st[0] == st[0];
      assert [st[0]] + st[1..] == st;
    }
  }

  lemma {:induction false} SplitJoin(parts: seq<string>, sep: char)
    requires |parts| >= 1
    requires forall k :: 0 <= k < |parts| ==> sep !in parts[k]
    ensures Split(Join(parts, sep), sep) == parts
  {
    if |parts| == 1 {
      SplitAfterWord(parts[0], "", sep);
      assert parts[0] + "" == parts[0];
    } else {
      var rest := Join(parts[1..], sep);
      SplitJoin(parts[1..], sep);
      assert ([sep] + rest)[1..] == rest;
      assert Split([sep] + rest, sep) == [""] + parts[1..];
      assert parts[0] + [sep] + rest == parts[0] + ([sep] + rest);
      SplitAfterWord(parts[0], [sep] + rest, sep);
      assert parts[0] + "" == parts[0];
      assert [parts[0]] + parts[1..] == parts;
    }
  }

  /** The last element of `s.split(sep)`. */
  function LastSegment(s: string, sep: char): string
  {
    var parts := Split(s, sep);
    parts[|parts| - 1]
  }

  lemma {:induction false} JoinLast(parts: seq<string>, sep: char)
    requires |parts| >= 2
    ensures Join(parts, sep) == Join(parts[..|parts| - 1], sep) + [sep] + parts[|parts| - 1]
  {
    if |parts| > 2 {
      JoinLast(parts[1..], sep);
      assert parts[1..][..|parts| - 2] == parts[..|parts| - 1][1..];
    }
  }

  /** The last segment is the longest separator-free suffix. */
  lemma LastSegmentIsMaximalSuffix(s: string, sep: char)
    ensures var r := LastSegment(s, sep);
      && sep !in r
      && |r| <= |s| && r == s[|s| - |r|..]
      && (|r| == |s| || s[|s| - |r| - 1] == sep)
  {
    var parts := Split(s, sep);
    JoinSplit(s, sep);
    if |parts| >= 2 {
      JoinLast(parts, sep);
    }
  }

  /** The last segment is empty exactly when the string is empty or ends in the separator. */
  lemma LastSegmentEmpty(s: string, sep: char)
    ensures LastSegment(s, sep) == "" <==> s == "" || s[|s| - 1] == sep
  {
    LastSegmentIsMaximalSuffix(s, sep);
  }

  /** Whatever precedes the last separator, the last segment is what follows it. */
  lemma LastSegmentAfterSeparator(p: string, k: string, sep: char)
    requires sep !in k
    ensures LastSegment(p + [sep] + k, sep) == k
  {
    var s := p + [sep] + k;
    var r := LastSegment(s, sep);
    LastSegmentIsMaximalSuffix(s, sep);
    assert s[|s| - |k| - 1] == sep;
    assert s[|s| - |k|..] == k;
  }
}
