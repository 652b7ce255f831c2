/** Text helpers standing for the JavaScript string and array built-ins the core calls. */
module Strings {

  /** The summed length of the parts. */
  function TotalLength(parts: seq<string>): nat {
    if parts == [] then 0 else |parts[0]| + TotalLength(parts[1..])
  }

  /** `parts.join(sep)`: the parts in order with exactly one separator between neighbours. */
  function Join(parts: seq<string>, sep: string): (r: string)
    ensures |parts| > 0 ==> |r| == TotalLength(parts) + (|parts| - 1) * |sep|
    ensures |parts| > 0 ==> parts[0] <= r
    decreases |parts|
  {
    if |parts| == 0 then ""
    else if |parts| == 1 then parts[0]
    else parts[0] + sep + Join(parts[1..], sep)
  }

  /** Joining one more part adds one separator and the part at the end. */
  lemma {:induction false} JoinAppend(parts: seq<string>, x: string, sep: string)
    requires |parts| > 0
    ensures Join(parts + [x], sep) == Join(parts, sep) + sep + x
  {
    if |parts| == 1 {
      assert (parts + [x])[1..] == [x];
    } else {
      assert (parts + [x])[0] == parts[0];
      assert (parts + [x])[1..] == parts[1..] + [x];
      JoinAppend(parts[1..], x, sep);
    }
  }

  /** The number of occurrences of `c` in `s`. */
  function Count(s: string, c: char): nat {
    if s == [] then 0 else (if s[0] == c then 1 else 0) + Count(s[1..], c)
  }

  lemma {:induction false} CountConcat(a: string, b: string, c: char)
    ensures Count(a + b, c) == Count(a, c) + Count(b, c)
  {
    if a == [] {
      assert a + b == b;
    } else {
      assert (a + b)[0] == a[0];
      assert (a + b)[1..] == a[1..] + b;
      CountConcat(a[1..], b, c);
    }
  }

  lemma {:induction false} CountAbsent(s: string, c: char)
    requires c !in s
    ensures Count(s, c) == 0
  {
    if s != [] {
      assert s[0] != c && c !in s[1..];
      CountAbsent(s[1..], c);
    }
  }

  /** Joining parts that each hold `c` once, with a separator that does not hold it, holds `c` once per part. */
  lemma {:induction false} CountJoin(parts: seq<string>, sep: string, c: char)
    requires forall i :: 0 <= i < |parts| ==> Count(parts[i], c) == 1
    requires Count(sep, c) == 0
    ensures Count(Join(parts, sep), c) == |parts|
  {
    if |parts| > 1 {
      CountJoin(parts[1..], sep, c);
      CountConcat(parts[0], sep, c);
      CountConcat(parts[0] + sep, Join(parts[1..], sep), c);
    }
  }

  /** The characters the regular-expression class `\s` matches in JavaScript. */
  predicate IsWhitespace(c: char) {
    var u := c as int;
    u == 0x09 || u == 0x0A || u == 0x0B || u == 0x0C || u == 0x0D || u == 0x20
    || u == 0xA0 || u == 0x1680 || (0x2000 <= u <= 0x200A)
    || u == 0x2028 || u == 0x2029 || u == 0x202F || u == 0x205F || u == 0x3000 || u == 0xFEFF
  }

  /** `s.replace(/\s+/g, '')`: every whitespace character removed, the others kept in order. */
  function StripWhitespace(s: string): (r: string)
    ensures forall i :: 0 <= i < |r| ==> !IsWhitespace(r[i])
    ensures |r| <= |s|
  {
    if s == [] then []
    else if IsWhitespace(s[0]) then StripWhitespace(s[1..])
    else [s[0]] + StripWhitespace(s[1..])
  }

  /** Stripping distributes over concatenation. */
  lemma {:induction false} StripConcat(a: string, b: string)
    ensures StripWhitespace(a + b) == StripWhitespace(a) + StripWhitespace(b)
  {
    if a == [] {
      assert a + b == b;
    } else {
      assert (a + b)[0] == a[0];
      assert (a + b)[1..] == a[1..] + b;
      StripConcat(a[1..], b);
    }
  }

  /** Stripping keeps exactly the non-whitespace characters. */
  lemma {:induction false} StripKeeps(s: string, c: char)
    ensures c in StripWhitespace(s) <==> c in s && !IsWhitespace(c)
  {
    if s != [] {
      StripKeeps(s[1..], c);
      assert s == [s[0]] + s[1..];
    }
  }

  /** Inserting a whitespace character anywhere does not change the stripped text. */
  lemma StripIgnoresWhitespace(a: string, w: char, b: string)
    requires IsWhitespace(w)
    ensures StripWhitespace(a + [w] + b) == StripWhitespace(a + b)
  {
    var l := a + [w];
    StripConcat(l, b);
    StripConcat(a, [w]);
    assert StripWhitespace([w]) == [] by {
      assert [w][1..] == [];
    }
    StripConcat(a, b);
  }

  /** Text without whitespace is left as it is, so stripping twice is stripping once. */
  lemma {:induction false} StripIdempotent(s: string)
    ensures StripWhitespace(StripWhitespace(s)) == StripWhitespace(s)
  {
    if s != [] {
      StripIdempotent(s[1..]);
      if !IsWhitespace(s[0]) {
        assert ([s[0]] + StripWhitespace(s[1..]))[1..] == StripWhitespace(s[1..]);
      }
    }
  }

  /** One decimal digit. */
  function DigitChar(d: nat): char
    requires d < 10
  {
    ('0' as int + d) as char
  }

  function Digits(n: nat): string
    decreases n
  {
    if n < 10 then [DigitChar(n)] else Digits(n / 10) + [DigitChar(n % 10)]
  }

  predicate IsDigit(c: char) {
    '0' <= c <= '9'
  }

  /** The number a non-empty run of decimal digits denotes. */
  function DigitsValue(s: string): nat
    requires forall i :: 0 <= i < |s| ==> IsDigit(s[i])
  {
    if s == [] then 0
    else
      assert IsDigit(s[|s| - 1]);
      10 * DigitsValue(s[..|s| - 1]) + (s[|s| - 1] as int - '0' as int)
  }

  /** An optional minus sign followed by a non-empty run of decimal digits. */
  predicate IsIntText(s: string) {
    if |s| > 0 && s[0] == '-' then |s| > 1 && forall i :: 1 <= i < |s| ==> IsDigit(s[i])
    else |s| > 0 && forall i :: 0 <= i < |s| ==> IsDigit(s[i])
  }

  /** Reads back the number such a text denotes. */
  function ParseInt(s: string): int
    requires IsIntText(s)
  {
    if s[0] == '-' then -(DigitsValue(s[1..]) as int) else DigitsValue(s)
  }

  /** `String(n)` for an integral number: a minus sign exactly when `n` is negative, then its decimal digits. */
  function IntToString(n: int): (r: string)
    ensures |r| > 0 && (r[0] == '-' <==> n < 0)
    ensures forall i :: (if n < 0 then 1 else 0) <= i < |r| ==> IsDigit(r[i])
    ensures IsIntText(r) && ParseInt(r) == n
    ensures r[if n < 0 then 1 else 0] == '0' ==> r == "0"
  {
    DigitsRoundTrip(if n < 0 then -n else n);
    DigitsLeading(if n < 0 then -n else n);
    if n < 0 then "-" + Digits(-n) else Digits(n)
  }

  /** A positive number is written without a leading zero. */
  lemma {:induction false} DigitsLeading(n: nat)
    ensures |Digits(n)| > 0
    ensures n > 0 ==> Digits(n)[0] != '0'
    decreases n
  {
    if n >= 10 {
      DigitsLeading(n / 10);
    }
  }

  lemma {:induction false} DigitsRoundTrip(n: nat)
    ensures |Digits(n)| > 0 && forall i :: 0 <= i < |Digits(n)| ==> IsDigit(Digits(n)[i])
    ensures DigitsValue(Digits(n)) == n
    decreases n
  {
    if n >= 10 {
      DigitsRoundTrip(n / 10);
      var d := Digits(n);
      assert d[..|d| - 1] == Digits(n / 10);
    }
  }

  /** The UTF-16 code units of a string, as `charCodeAt` reads them: one per BMP character, a surrogate pair otherwise. */
  function Utf16(s: string): (units: seq<int>)
    ensures forall i :: 0 <= i < |units| ==> 0 <= units[i] < 0x10000
    ensures |units| >= |s|
  {
    if s == [] then []
    else
      var u := s[0] as int;
      var head := if u < 0x10000 then [u]
                  else [0xD800 + (u - 0x10000) / 0x400, 0xDC00 + (u - 0x10000) % 0x400];
      head + Utf16(s[1..])
  }

  /** Code units form a well-formed UTF-16 text: every high surrogate is followed by a low one, and no low surrogate stands alone. */
  predicate WellFormedUtf16(units: seq<int>)
    decreases |units|
  {
    if units == [] then true
    else if 0xD800 <= units[0] < 0xDC00 then
      |units| >= 2 && 0xDC00 <= units[1] < 0xE000 && WellFormedUtf16(units[2..])
    else (0 <= units[0] < 0xD800 || 0xE000 <= units[0] < 0x10000) && WellFormedUtf16(units[1..])
  }

  /** Decodes well-formed UTF-16 code units into characters, joining surrogate pairs. */
  function FromUtf16(units: seq<int>): string
    requires WellFormedUtf16(units)
    decreases |units|
  {
    if units == [] then []
    else if 0xD800 <= units[0] < 0xDC00 then
      [(0x10000 + (units[0] - 0xD800) * 0x400 + (units[1] - 0xDC00)) as char] + FromUtf16(units[2..])
    else [units[0] as char] + FromUtf16(units[1..])
  }

  /** The code units of a string are well formed and decode back into the string. */
  lemma {:induction false} Utf16RoundTrip(s: string)
    ensures WellFormedUtf16(Utf16(s))
    ensures FromUtf16(Utf16(s)) == s
  {
    if s != [] {
      Utf16RoundTrip(s[1..]);
      var u := s[0] as int;
      var units := Utf16(s);
      if u < 0x10000 {
        assert units == [u] + Utf16(s[1..]);
        assert units[1..] == Utf16(s[1..]);
      } else {
        var hi := 0xD800 + (u - 0x10000) / 0x400;
        var lo := 0xDC00 + (u - 0x10000) % 0x400;
        assert units == [hi, lo] + Utf16(s[1..]);
        assert units[2..] == Utf16(s[1..]);
        assert 0x10000 + (hi - 0xD800) * 0x400 + (lo - 0xDC00) == u;
      }
    }
  }

  /** The code units of a concatenation are the concatenated code units. */
  lemma {:induction false} Utf16Concat(a: string, b: string)
    ensures Utf16(a + b) == Utf16(a) + Utf16(b)
  {
    if a == [] {
      assert a + b == b;
    } else {
      assert (a + b)[0] == a[0];
      assert (a + b)[1..] == a[1..] + b;
      Utf16Concat(a[1..], b);
    }
  }

  /** A string of characters below U+10000 has one code unit per character, its code point. */
  lemma {:induction false} Utf16Bmp(s: string)
    requires forall i :: 0 <= i < |s| ==> (s[i] as int) < 0x10000
    ensures |Utf16(s)| == |s|
    ensures forall i :: 0 <= i < |s| ==> Utf16(s)[i] == s[i] as int
  {
    if s != [] {
      Utf16Bmp(s[1..]);
      assert Utf16(s) == [s[0] as int] + Utf16(s[1..]);
    }
  }
}
