/** Character classes and the .NET string services the core relies on:
    `String.Split()` with no separator, `Int32.Parse` with the default integer
    style (`Convert.ToInt32`), hexadecimal parsing with `NumberStyles.HexNumber`,
    and the decimal rendering of `int.ToString()` used in kernel names. */
module Text {
  import opened Wrappers

  /** `Char.IsWhiteSpace`: the Unicode space, line and paragraph separators plus
      U+0009..U+000D and U+0085. */
  predicate IsWhiteSpace(c: char)
  {
    ('\U{9}' <= c <= '\U{D}') || c == ' ' || c == '\U{85}' || c == '\U{A0}' ||
    c == '\U{1680}' || ('\U{2000}' <= c <= '\U{200A}') || c == '\U{2028}' || c == '\U{2029}' ||
    c == '\U{202F}' || c == '\U{205F}' || c == '\U{3000}'
  }

  /** The white space that `NumberStyles.AllowLeadingWhite` / `AllowTrailingWhite`
      skip: U+0009..U+000D and U+0020 only. */
  predicate IsNumberWhite(c: char)
  {
    ('\U{9}' <= c <= '\U{D}') || c == ' '
  }

  ghost predicate NoWhiteSpace(f: string)
  {
    forall k :: 0 <= k < |f| ==> !IsWhiteSpace(f[k])
  }

  // ---------------------------------------------------------------------------
  // String.Split()

  /** `s.Split()`: cuts at every white-space character and keeps empty fields,
      so there is always at least one field. */
  function Split(s: string): (fields: seq<string>)
    ensures |fields| >= 1
    ensures forall i :: 0 <= i < |fields| ==> NoWhiteSpace(fields[i])
  {
    if s == [] then [""]
    else
      var rest := Split(s[..|s| - 1]);
      var c := s[|s| - 1];
      if IsWhiteSpace(c) then rest + [""]
      else rest[..|rest| - 1] + [rest[|rest| - 1] + [c]]
  }

  /** The white-space characters of `s`, in order. */
  function Separators(s: string): (seps: string)
  {
    if s == [] then []
    else if IsWhiteSpace(s[|s| - 1]) then Separators(s[..|s| - 1]) + [s[|s| - 1]]
    else Separators(s[..|s| - 1])
  }

  /** Puts fields back together, `seps[i]` between `fields[i]` and `fields[i + 1]`. */
  function Rejoin(fields: seq<string>, seps: string): string
    requires |fields| == |seps| + 1
  {
    if |fields| == 1 then fields[0]
    else Rejoin(fields[..|fields| - 1], seps[..|seps| - 1]) + [seps[|seps| - 1]] + fields[|fields| - 1]
  }

  /** Splitting loses nothing: one more field than separators, and the fields
      rejoined with the separators give the line back. */
  lemma {:induction false} SplitRejoin(s: string)
    ensures |Split(s)| == |Separators(s)| + 1
    ensures Rejoin(Split(s), Separators(s)) == s
  {
    if s != [] {
      var init, c := s[..|s| - 1], s[|s| - 1];
      SplitRejoin(init);
      assert s == init + [c];
      if IsWhiteSpace(c) {
        RejoinNewField(Split(init), Separators(init), c);
      } else {
        RejoinExtendLast(Split(init), Separators(init), c);
      }
    }
  }

  /** A separator followed by an empty field adds the separator to the text. */
  lemma RejoinNewField(fields: seq<string>, seps: string, c: char)
    requires |fields| == |seps| + 1
    ensures Rejoin(fields + [""], seps + [c]) == Rejoin(fields, seps) + [c]
  {
    assert (fields + [""])[..|fields|] == fields;
    assert (seps + [c])[..|seps|] == seps;
  }

  /** A character added to the last field is added to the end of the text. */
  lemma RejoinExtendLast(fields: seq<string>, seps: string, c: char)
    requires |fields| == |seps| + 1
    ensures var n := |fields|;
      Rejoin(fields[..n - 1] + [fields[n - 1] + [c]], seps) == Rejoin(fields, seps) + [c]
  {
    var n := |fields|;
    var fs := fields[..n - 1] + [fields[n - 1] + [c]];
    if n > 1 {
      assert fs[..n - 1] == fields[..n - 1];
    }
  }

  // ---------------------------------------------------------------------------
  // Decimal numbers

  predicate IsDigit(c: char)
  {
    '0' <= c <= '9'
  }

  predicate AllDigits(s: string)
  {
    forall k :: 0 <= k < |s| ==> IsDigit(s[k])
  }

  function DigitValue(c: char): nat
    requires IsDigit(c)
  {
    c as nat - '0' as nat
  }

  /** The value of a string of decimal digits, most significant first. */
  function DigitsValue(s: string): nat
    requires AllDigits(s)
  {
    if s == [] then 0 else 10 * DigitsValue(s[..|s| - 1]) + DigitValue(s[|s| - 1])
  }

  function DigitChar(d: nat): (c: char)
    requires d < 10
    ensures IsDigit(c) && DigitValue(c) == d
  {
    ('0' as nat + d) as char
  }

  /** `n.ToString()` for a non-negative `n`: shortest decimal digits. */
  function Dec(n: nat): (s: string)
    ensures |s| >= 1 && AllDigits(s)
    ensures |s| == 1 <==> n < 10
  {
    if n < 10 then [DigitChar(n)] else Dec(n / 10) + [DigitChar(n % 10)]
  }

  /** Reading back a rendered number gives the number. */
  lemma {:induction false} DecRoundTrip(n: nat)
    ensures DigitsValue(Dec(n)) == n
  {
    if n >= 10 {
      DecRoundTrip(n / 10);
      var s := Dec(n);
      assert s[..|s| - 1] == Dec(n / 10);
    }
  }

  lemma DecInjective(n: nat, m: nat)
    requires Dec(n) == Dec(m)
    ensures n == m
  {
    DecRoundTrip(n);
    DecRoundTrip(m);
  }

  /** Position of the first '_' in `s` (|s| when there is none). */
  function FirstUnderscore(s: string): (i: nat)
    ensures i <= |s|
  {
    if s == [] || s[0] == '_' then 0 else 1 + FirstUnderscore(s[1..])
  }

  lemma {:induction false} FirstUnderscoreAfterDigits(a: string, b: string)
    requires AllDigits(a)
    ensures FirstUnderscore(a + "_" + b) == |a|
  {
    if a != [] {
      assert (a + "_" + b)[1..] == a[1..] + "_" + b;
      FirstUnderscoreAfterDigits(a[1..], b);
    }
  }

  /** Cutting at the first '_' is unambiguous when the part before it is digits. */
  lemma CutAtUnderscore(a: string, b: string, c: string, d: string)
    requires AllDigits(a) && AllDigits(c)
    requires a + "_" + b == c + "_" + d
    ensures a == c && b == d
  {
    var s := a + "_" + b;
    FirstUnderscoreAfterDigits(a, b);
    FirstUnderscoreAfterDigits(c, d);
    assert a == s[..|a|] == c;
    assert b == s[|a| + 1..] == d;
  }

  // ---------------------------------------------------------------------------
  // Int32.Parse (NumberStyles.Integer)

  const Int32Min: int := -0x8000_0000
  const Int32Max: int := 0x7FFF_FFFF

  function TrimNumberWhite(s: string): (t: string)
    ensures |t| <= |s|
    ensures t != [] ==> !IsNumberWhite(t[0]) && !IsNumberWhite(t[|t| - 1])
    decreases |s|
  {
    if s == [] then []
    else if IsNumberWhite(s[0]) then TrimNumberWhite(s[1..])
    else if IsNumberWhite(s[|s| - 1]) then TrimNumberWhite(s[..|s| - 1])
    else s
  }

  /** An optional sign followed by one or more decimal digits. */
  ghost predicate SignedNumeral(t: string)
  {
    if t != [] && (t[0] == '+' || t[0] == '-') then |t| >= 2 && AllDigits(t[1..])
    else |t| >= 1 && AllDigits(t)
  }

  /** The value a signed numeral denotes; leading zeros add nothing. */
  ghost function SignedValue(t: string): int
    requires SignedNumeral(t)
  {
    if t[0] == '-' then -(DigitsValue(t[1..]) as int)
    else if t[0] == '+' then DigitsValue(t[1..])
    else DigitsValue(t)
  }

  /** `Convert.ToInt32(s)`: optional surrounding white space, an optional sign,
      at least one digit, and a value that fits in 32 bits; `None` where .NET
      throws, for a malformed numeral and for one out of range alike. */
  function ParseInt32(s: string): (r: Option<int>)
    ensures r.Some? ==> Int32Min <= r.value <= Int32Max
  {
    var t := TrimNumberWhite(s);
    var neg := t != [] && t[0] == '-';
    var digits := if t != [] && (t[0] == '-' || t[0] == '+') then t[1..] else t;
    if digits == [] || !AllDigits(digits) then None
    else
      var v := if neg then -(DigitsValue(digits) as int) else DigitsValue(digits) as int;
      if Int32Min <= v <= Int32Max then Some(v) else None
  }

  /** What `Convert.ToInt32` accepts and yields: the trimmed text must be an
      optional sign and at least one digit, with a signed value in the 32-bit
      range, and the result is that value; malformed and out-of-range numerals
      both fail rather than wrap. */
  lemma ParseInt32Accepts(s: string)
    ensures ParseInt32(s).Some? <==>
      SignedNumeral(TrimNumberWhite(s)) && Int32Min <= SignedValue(TrimNumberWhite(s)) <= Int32Max
    ensures ParseInt32(s).Some? ==> ParseInt32(s).value == SignedValue(TrimNumberWhite(s))
  {
    var t := TrimNumberWhite(s);
    var digits := if t != [] && (t[0] == '-' || t[0] == '+') then t[1..] else t;
    assert SignedNumeral(t) <==> digits != [] && AllDigits(digits);
  }

  /** A rendered count parses back to itself. */
  lemma ParseInt32OfDec(n: nat)
    requires n <= Int32Max
    ensures ParseInt32(Dec(n)) == Some(n)
  {
    var s := Dec(n);
    assert !IsNumberWhite(s[0]) && !IsNumberWhite(s[|s| - 1]);
    assert TrimNumberWhite(s) == s;
    DecRoundTrip(n);
  }

  /** A minus sign followed by digits parses to the negated digit value, down
      to -2^31, leading zeros included. */
  lemma ParseInt32OfNegated(d: string)
    requires d != [] && AllDigits(d) && DigitsValue(d) <= 0x8000_0000
    ensures ParseInt32("-" + d) == Some(-(DigitsValue(d) as int))
  {
    var s := "-" + d;
    assert s[1..] == d && s[0] == '-' && s[|s| - 1] == d[|d| - 1];
    assert TrimNumberWhite(s) == s;
  }

  /** Digits whose value exceeds 2^31 - 1 are refused rather than wrapped. */
  lemma ParseInt32OfLarge(d: string)
    requires d != [] && AllDigits(d) && DigitsValue(d) > Int32Max
    ensures ParseInt32(d) == None
  {
    assert TrimNumberWhite(d) == d;
  }

  // ---------------------------------------------------------------------------
  // Hexadecimal numbers (NumberStyles.HexNumber)

  predicate IsHexDigit(c: char)
  {
    IsDigit(c) || ('a' <= c <= 'f') || ('A' <= c <= 'F')
  }

  ghost predicate AllHexDigits(s: string)
  {
    forall k :: 0 <= k < |s| ==> IsHexDigit(s[k])
  }

  function HexDigitValue(c: char): (d: nat)
    requires IsHexDigit(c)
    ensures d < 16
  {
    if IsDigit(c) then DigitValue(c)
    else if 'a' <= c <= 'f' then c as nat - 'a' as nat + 10
    else c as nat - 'A' as nat + 10
  }

  function Pow16(n: nat): (r: nat)
    ensures r >= 1
  {
    if n == 0 then 1 else 16 * Pow16(n - 1)
  }

  /** The value of a string of hexadecimal digits, most significant first. */
  function HexValue(s: string): nat
    requires AllHexDigits(s)
  {
    if s == [] then 0 else 16 * HexValue(s[..|s| - 1]) + HexDigitValue(s[|s| - 1])
  }

  lemma {:induction false} HexValueBound(s: string)
    requires AllHexDigits(s)
    ensures HexValue(s) < Pow16(|s|)
  {
    if s != [] {
      HexValueBound(s[..|s| - 1]);
    }
  }

  /** `ulong.Parse(s, HexNumber)` / `uint.Parse(s, HexNumber)` on a field short
      enough never to overflow: optional surrounding white space around at least
      one hexadecimal digit; `None` where .NET throws. */
  function ParseHex(s: string): (r: Option<nat>)
    ensures r.Some? ==> r.value < Pow16(|s|)
  {
    var t := TrimNumberWhite(s);
    if t == [] || !(forall k | 0 <= k < |t| :: IsHexDigit(t[k])) then None
    else
      HexValueBound(t);
      PowMonotone(|t|, |s|);
      Some(HexValue(t))
  }

  lemma {:induction false} PowMonotone(a: nat, b: nat)
    requires a <= b
    ensures Pow16(a) <= Pow16(b)
  {
    if a < b {
      PowMonotone(a, b - 1);
    }
  }

  function HexChar(d: nat): (c: char)
    requires d < 16
    ensures IsHexDigit(c) && HexDigitValue(c) == d
  {
    if d < 10 then DigitChar(d) else ('A' as nat + d - 10) as char
  }

  /** `v` written with exactly `n` upper-case hexadecimal digits, zero-padded. */
  function HexOf(v: nat, n: nat): (s: string)
    ensures |s| == n && AllHexDigits(s)
  {
    if n == 0 then [] else HexOf(v / 16, n - 1) + [HexChar(v % 16)]
  }

  lemma {:induction false} HexOfRoundTrip(v: nat, n: nat)
    requires v < Pow16(n)
    ensures HexValue(HexOf(v, n)) == v
  {
    if n > 0 {
      HexOfRoundTrip(v / 16, n - 1);
      var s := HexOf(v, n);
      assert s[..|s| - 1] == HexOf(v / 16, n - 1);
    }
  }

  /** A fixed-width hexadecimal field parses back to the value written into it. */
  lemma ParseHexOf(v: nat, n: nat)
    requires 0 < n && v < Pow16(n)
    ensures ParseHex(HexOf(v, n)) == Some(v)
  {
    var s := HexOf(v, n);
    assert IsHexDigit(s[0]) && IsHexDigit(s[|s| - 1]);
    assert TrimNumberWhite(s) == s;
    HexOfRoundTrip(v, n);
  }
}
