/** The string primitives of JavaScript that the backend relies on:
    truthiness of optional strings, `toLowerCase`, `includes`, `split`,
    `parseInt` and `padStart(2, '0')`. */
module Strings {
  import opened Wrappers

  /** A JavaScript string value is truthy when it is defined and non-empty. */
  predicate Truthy(o: Option<string>) {
    o.Some? && o.value != ""
  }

  /** `o || fallback` for an optional string. */
  function OrElse(o: Option<string>, fallback: string): (r: string)
    ensures Truthy(o) ==> r == o.value
    ensures !Truthy(o) ==> r == fallback
  {
    if Truthy(o) then o.value else fallback
  }

  /** Text of a value spliced into a template literal: `${undefined}` is "undefined". */
  function TemplateText(o: Option<string>): string {
    if o.Some? then o.value else "undefined"
  }

  function LowerChar(c: char): char {
    if 'A' <= c <= 'Z' then (c as int + 32) as char else c
  }

  /** `toLowerCase`, restricted to the ASCII letters. */
  function ToLower(s: string): string {
    seq(|s|, i requires 0 <= i < |s| => LowerChar(s[i]))
  }

  /** `s.includes(sub)`. */
  predicate Contains(s: string, sub: string)
    decreases |s|
  {
    (|sub| <= |s| && s[..|sub|] == sub) || (|s| > 0 && Contains(s[1..], sub))
  }

  // ---------------------------------------------------------------------
  // split and join

  /** `s.split(sep)` for a one-character separator: every separator ends a part,
      so "" gives [""] and "a," gives ["a", ""]. */
  function Split(s: string, sep: char): (parts: seq<string>)
    ensures |parts| >= 1
    ensures forall k :: 0 <= k < |parts| ==> sep !in parts[k]
    decreases |s|
  {
    if |s| == 0 then [""]
    else
      var rest := Split(s[1..], sep);
      if s[0] == sep then [""] + rest
      else [[s[0]] + rest[0]] + rest[1..]
  }

  /** `parts.join(sep)`. */
  function Join(parts: seq<string>, sep: char): string
    requires |parts| >= 1
    decreases |parts|
  {
    if |parts| == 1 then parts[0] else parts[0] + [sep] + Join(parts[1..], sep)
  }

  /** Splitting loses nothing: joining the parts back gives the original string. */
  lemma {:induction false} JoinSplit(s: string, sep: char)
    ensures Join(Split(s, sep), sep) == s
    decreases |s|
  {
    if |s| > 0 {
      var rest := Split(s[1..], sep);
      JoinSplit(s[1..], sep);
      if s[0] == sep {
        assert Split(s, sep) == [""] + rest;
        assert ([""] + rest)[1..] == rest;
        assert s == [sep] + s[1..];
      } else if |rest| == 1 {
        assert Split(s, sep) == [[s[0]] + rest[0]];
        assert s == [s[0]] + s[1..];
      } else {
        var parts := Split(s, sep);
        assert parts == [[s[0]] + rest[0]] + rest[1..];
        assert parts[1..] == rest[1..];
        assert Join(rest, sep) == rest[0] + [sep] + Join(rest[1..], sep);
        assert s == [s[0]] + s[1..];
      }
    }
  }

  /** A string free of the separator splits into itself. */
  lemma {:induction false} SplitOfWord(w: string, sep: char)
    requires sep !in w
    ensures Split(w, sep) == [w]
    decreases |w|
  {
    if |w| > 0 {
      SplitOfWord(w[1..], sep);
      assert [w[0]] + w[1..] == w;
    }
  }

  /** A word free of the separator, followed by the separator, is one whole part. */
  lemma {:induction false} SplitAfterWord(w: string, sep: char, rest: string)
    requires sep !in w
    ensures Split(w + [sep] + rest, sep) == [w] + Split(rest, sep)
    decreases |w|
  {
    var s := w + [sep] + rest;
    if |w| == 0 {
      assert s[0] == sep && s[1..] == rest;
    } else {
      SplitAfterWord(w[1..], sep, rest);
      assert s[1..] == w[1..] + [sep] + rest;
      assert [w[0]] + w[1..] == w;
    }
  }

  /** Joining parts that are free of the separator and splitting again gives the parts back. */
  lemma {:induction false} SplitJoin(parts: seq<string>, sep: char)
    requires |parts| >= 1
    requires forall k :: 0 <= k < |parts| ==> sep !in parts[k]
    ensures Split(Join(parts, sep), sep) == parts
    decreases |parts|
  {
    if |parts| == 1 {
      SplitOfWord(parts[0], sep);
    } else {
      SplitJoin(parts[1..], sep);
      SplitAfterWord(parts[0], sep, Join(parts[1..], sep));
      assert [parts[0]] + parts[1..] == parts;
    }
  }

  /** `s.split(sep)[0]`: the text before the first separator. */
  function BeforeFirst(s: string, sep: char): string {
    Split(s, sep)[0]
  }

  // ---------------------------------------------------------------------
  // digits

  predicate IsDecimalDigit(c: char) { '0' <= c <= '9' }

  predicate IsHexDigit(c: char) {
    IsDecimalDigit(c) || 'a' <= c <= 'f' || 'A' <= c <= 'F'
  }

  predicate IsDigitIn(c: char, radix: nat) {
    if radix == 16 then IsHexDigit(c) else IsDecimalDigit(c)
  }

  function DigitValue(c: char): (d: nat)
    requires IsHexDigit(c)
    ensures d < 16
    ensures IsDecimalDigit(c) ==> d < 10
  {
    if IsDecimalDigit(c) then c as int - '0' as int
    else if 'a' <= c <= 'f' then c as int - 'a' as int + 10
    else c as int - 'A' as int + 10
  }

  function DigitChar(d: nat): (c: char)
    requires d < 10
    ensures IsDecimalDigit(c) && DigitValue(c) == d
  {
    ('0' as int + d) as char
  }

  /** Value of a string made of digits of the given radix, most significant first. */
  function DigitsValue(s: string, radix: nat): nat
    requires forall k :: 0 <= k < |s| ==> IsDigitIn(s[k], radix)
    decreases |s|
  {
    if |s| == 0 then 0
    else
      assert IsDigitIn(s[|s| - 1], radix);
      DigitsValue(s[..|s| - 1], radix) * radix + DigitValue(s[|s| - 1])
  }

  /** Number of leading characters of `s` that are digits of the radix. */
  function DigitRun(s: string, radix: nat): (n: nat)
    ensures n <= |s|
    ensures forall k :: 0 <= k < n ==> IsDigitIn(s[k], radix)
    ensures n < |s| ==> !IsDigitIn(s[n], radix)
    decreases |s|
  {
    if |s| == 0 || !IsDigitIn(s[0], radix) then 0 else 1 + DigitRun(s[1..], radix)
  }

  /** Decimal text of a natural number, without leading zeros (`n.toString()`). */
  function NatToDecimal(n: nat): (s: string)
    ensures |s| >= 1
    ensures forall k :: 0 <= k < |s| ==> IsDecimalDigit(s[k])
    ensures n >= 10 ==> s[0] != '0'
    decreases n
  {
    if n < 10 then [DigitChar(n)] else NatToDecimal(n / 10) + [DigitChar(n % 10)]
  }

  lemma {:induction false} DecimalRoundTrip(n: nat)
    ensures forall k :: 0 <= k < |NatToDecimal(n)| ==> IsDigitIn(NatToDecimal(n)[k], 10)
    ensures DigitsValue(NatToDecimal(n), 10) == n
    decreases n
  {
    var s := NatToDecimal(n);
    if n >= 10 {
      DecimalRoundTrip(n / 10);
      assert s[..|s| - 1] == NatToDecimal(n / 10);
    }
  }

  /** `n.toString().padStart(2, '0')`. */
  function Pad2(n: nat): (s: string)
    ensures n < 100 ==> (|s| == 2 && IsDecimalDigit(s[0]) && IsDecimalDigit(s[1])
      && DigitValue(s[0]) == n / 10 && DigitValue(s[1]) == n % 10)
  {
    var d := NatToDecimal(n);
    assert 10 <= n < 100 ==> d == [DigitChar(n / 10)] + [DigitChar(n % 10)] by {
      if 10 <= n < 100 { assert NatToDecimal(n / 10) == [DigitChar(n / 10)]; }
    }
    if |d| < 2 then "0" + d else d
  }

  // ---------------------------------------------------------------------
  // parseInt

  /** The white space that `parseInt` skips before the number. */
  predicate IsJsSpace(c: char) {
    var n := c as int;
    (9 <= n <= 13) || n == 32 || n == 0xA0 || n == 0x1680 || (0x2000 <= n <= 0x200A)
    || n == 0x2028 || n == 0x2029 || n == 0x202F || n == 0x205F || n == 0x3000 || n == 0xFEFF
  }

  function TrimStart(s: string): (r: string)
    ensures |r| <= |s| && (|r| > 0 ==> !IsJsSpace(r[0]))
    ensures |s| > 0 && !IsJsSpace(s[0]) ==> r == s
    decreases |s|
  {
    if |s| > 0 && IsJsSpace(s[0]) then TrimStart(s[1..]) else s
  }

  /** The value of the leading digits of `body` in the radix; None (NaN) when there are none. */
  function LeadingNumber(body: string, radix: nat): Option<nat> {
    var n := DigitRun(body, radix);
    if n == 0 then None else Some(DigitsValue(body[..n], radix))
  }

  /** `parseInt(s)` without a radix argument: leading white space, an optional sign,
      an optional `0x` prefix selecting base 16, then the longest run of digits.
      None stands for NaN. */
  function JsParseInt(s: string): (r: Option<int>)
  {
    var t := TrimStart(s);
    var negative := |t| > 0 && t[0] == '-';
    var unsigned := if |t| > 0 && (t[0] == '-' || t[0] == '+') then t[1..] else t;
    var hex := |unsigned| >= 2 && unsigned[0] == '0' && (unsigned[1] == 'x' || unsigned[1] == 'X');
    var magnitude := if hex then LeadingNumber(unsigned[2..], 16) else LeadingNumber(unsigned, 10);
    match magnitude
    case None => None
    case Some(m) =>
      var v: int := if negative then -(m as int) else m as int;
      Some(v)
  }

  /** `parseInt` reads back the decimal text of every natural number. */
  lemma ParseIntOfDecimal(n: nat)
    ensures JsParseInt(NatToDecimal(n)) == Some(n)
  {
    var s := NatToDecimal(n);
    DecimalRoundTrip(n);
    assert !IsJsSpace(s[0]);
    assert TrimStart(s) == s;
    assert DigitRun(s, 10) == |s| by { DigitRunOfDigits(s, 10); }
    assert s[..|s|] == s;
    if |s| >= 2 { assert s[1] != 'x' && s[1] != 'X'; }
  }

  lemma {:induction false} DigitRunOfDigits(s: string, radix: nat)
    requires forall k :: 0 <= k < |s| ==> IsDigitIn(s[k], radix)
    ensures DigitRun(s, radix) == |s|
    decreases |s|
  {
    if |s| > 0 { DigitRunOfDigits(s[1..], radix); }
  }

  /** `parseInt` of a two-digit decimal string such as "09" is its value. */
  lemma ParseIntOfTwoDigits(s: string)
    requires |s| == 2 && IsDecimalDigit(s[0]) && IsDecimalDigit(s[1])
    ensures JsParseInt(s) == Some(10 * DigitValue(s[0]) + DigitValue(s[1]))
  {
    assert TrimStart(s) == s;
    DigitRunOfDigits(s, 10);
    assert s[..2] == s;
    assert s[..2][..1] == [s[0]];
    assert DigitsValue([s[0]], 10) == DigitValue(s[0]) by {
      assert [s[0]][..0] == [];
    }
  }
}
