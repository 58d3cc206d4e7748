/** String helpers with the JavaScript meaning the attendance code relies on:
    `String(n)`, `padStart`, `parseInt` on digit strings, `split`/`join`,
    ASCII `toLowerCase`/`toUpperCase` and `includes`. */
module Text {

  predicate IsDigit(c: char) { '0' <= c <= '9' }

  predicate AllDigits(s: string) { forall i :: 0 <= i < |s| ==> IsDigit(s[i]) }

  function DigitChar(d: nat): (c: char)
    requires d < 10
    ensures IsDigit(c)
  {
    ('0' as int + d) as char
  }

  function DigitValue(c: char): (d: nat)
    requires IsDigit(c)
    ensures d < 10
  {
    c as int - '0' as int
  }

  /** `String(n)` for a non-negative integer: decimal digits, no leading zero. */
  function Decimal(n: nat): (s: string)
    ensures |s| >= 1 && AllDigits(s)
    ensures (s[0] == '0') == (n == 0)
    decreases n
  {
    if n < 10 then [DigitChar(n)] else Decimal(n / 10) + [DigitChar(n % 10)]
  }

  /** The number a digit string denotes (what `parseInt` returns for it). */
  function ParseDecimal(s: string): nat
    requires AllDigits(s)
  {
    if |s| == 0 then 0 else ParseDecimal(s[..|s| - 1]) * 10 + DigitValue(s[|s| - 1])
  }

  /** Reading back the decimal rendering gives the number. */
  lemma {:induction false} ParseDecimalOfDecimal(n: nat)
    ensures ParseDecimal(Decimal(n)) == n
    decreases n
  {
    if n >= 10 {
      var s := Decimal(n);
      assert s[..|s| - 1] == Decimal(n / 10);
      ParseDecimalOfDecimal(n / 10);
    }
  }

  /** A leading zero does not change the value of a digit string. */
  lemma {:induction false} ParseDecimalLeadingZero(s: string)
    requires AllDigits(s)
    ensures ParseDecimal("0" + s) == ParseDecimal(s)
    decreases |s|
  {
    if |s| > 0 {
      var t := "0" + s;
      assert t[..|t| - 1] == "0" + s[..|s| - 1];
      ParseDecimalLeadingZero(s[..|s| - 1]);
    }
  }

  /** `s.padStart(width, fill)`: prepend `fill` until `s` is at least `width` long. */
  function PadStart(s: string, width: nat, fill: char): (r: string)
    ensures |r| == if |s| >= width then |s| else width
    ensures r[|r| - |s|..] == s
    ensures forall i :: 0 <= i < |r| - |s| ==> r[i] == fill
    decreases width - |s|
  {
    if |s| >= width then s else PadStart([fill] + s, width, fill)
  }

  /** Zero padding keeps a digit string's value. */
  lemma {:induction false} ParsePadded(s: string, width: nat)
    requires AllDigits(s)
    ensures AllDigits(PadStart(s, width, '0'))
    ensures ParseDecimal(PadStart(s, width, '0')) == ParseDecimal(s)
    decreases width - |s|
  {
    if |s| < width {
      ParsePadded("0" + s, width);
      ParseDecimalLeadingZero(s);
    }
  }

  /** The longest prefix of digits: the part of a string `parseInt` reads. */
  function LeadingDigits(s: string): (r: string)
    ensures AllDigits(r) && |r| <= |s| && r == s[..|r|]
    ensures |r| < |s| ==> !IsDigit(s[|r|])
  {
    if |s| == 0 || !IsDigit(s[0]) then "" else [s[0]] + LeadingDigits(s[1..])
  }

  lemma {:induction false} LeadingDigitsOfDigits(s: string)
    requires AllDigits(s)
    ensures LeadingDigits(s) == s
  {
    if |s| > 0 {
      LeadingDigitsOfDigits(s[1..]);
    }
  }

  /** A digit string holds no other character. */
  lemma DigitsExclude(s: string, c: char)
    requires AllDigits(s) && !IsDigit(c)
    ensures c !in s
  {
    forall i | 0 <= i < |s| ensures s[i] != c {
      assert IsDigit(s[i]);
    }
  }

  /** `parts.join(sep)`. */
  function Join(parts: seq<string>, sep: char): string
    requires |parts| >= 1
  {
    if |parts| == 1 then parts[0] else parts[0] + [sep] + Join(parts[1..], sep)
  }

  /** `s.split(sep)` for a one-character separator: always at least one part,
      no part holds the separator, and joining the parts gives `s` back. */
  function Split(s: string, sep: char): (parts: seq<string>)
    ensures |parts| >= 1
    ensures forall k :: 0 <= k < |parts| ==> sep !in parts[k]
    ensures Join(parts, sep) == s
  {
    if |s| == 0 then [""]
    else
      var rest := Split(s[1..], sep);
      if s[0] == sep then [""] + rest
      else [[s[0]] + rest[0]] + rest[1..]
  }

  lemma {:induction false} SplitPrefix(a: string, sep: char, tail: string)
    requires sep !in a
    ensures Split(a + tail, sep) == [a + Split(tail, sep)[0]] + Split(tail, sep)[1..]
    decreases |a|
  {
    if |a| > 0 {
      var t := Split(tail, sep);
      assert (a + tail)[0] == a[0] && (a + tail)[1..] == a[1..] + tail;
      SplitPrefix(a[1..], sep, tail);
      var rest := Split(a[1..] + tail, sep);
      assert rest[0] == a[1..] + t[0] && rest[1..] == t[1..];
      assert [a[0]] + (a[1..] + t[0]) == a + t[0];
    } else {
      var t := Split(tail, sep);
      assert a + tail == tail && a + t[0] == t[0];
      assert [t[0]] + t[1..] == t;
    }
  }

  /** A string with exactly one separator splits into the two sides. */
  lemma SplitTwo(a: string, sep: char, b: string)
    requires sep !in a && sep !in b
    ensures Split(a + [sep] + b, sep) == [a, b]
  {
    SplitPrefix(b, sep, "");
    assert b + "" == b;
    assert Split(b, sep) == [b];
    assert ([sep] + b)[1..] == b;
    assert Split([sep] + b, sep) == ["", b];
    assert a + [sep] + b == a + ([sep] + b);
    SplitPrefix(a, sep, [sep] + b);
    assert a + "" == a;
  }

  /** ASCII `toLowerCase`. */
  function Lower(c: char): char
  {
    if 'A' <= c <= 'Z' then (c as int + 32) as char else c
  }

  function ToLower(s: string): (r: string)
    ensures |r| == |s| && forall i :: 0 <= i < |s| ==> r[i] == Lower(s[i])
  {
    if |s| == 0 then "" else [Lower(s[0])] + ToLower(s[1..])
  }

  /** ASCII `toUpperCase`. */
  function Upper(c: char): char
  {
    if 'a' <= c <= 'z' then (c as int - 32) as char else c
  }

  /** `s.charAt(0).toUpperCase() + s.slice(1)`. */
  function Capitalize(s: string): (r: string)
    ensures |r| == |s|
    ensures |s| > 0 ==> r[0] == Upper(s[0]) && r[1..] == s[1..]
  {
    if |s| == 0 then "" else [Upper(s[0])] + s[1..]
  }

  /** `needle` occurs in `hay` starting at position `i`. */
  predicate OccursAt(hay: string, needle: string, i: int)
  {
    0 <= i <= |hay| - |needle| && hay[i..i + |needle|] == needle
  }

  /** `hay.includes(needle)`: the needle occurs at some position. */
  function Contains(hay: string, needle: string): (b: bool)
    ensures b <==> exists i :: OccursAt(hay, needle, i)
  {
    if |needle| <= |hay| && hay[..|needle|] == needle then
      assert OccursAt(hay, needle, 0);
      true
    else if |hay| == 0 then
      false
    else
      var r := Contains(hay[1..], needle);
      assert forall i :: OccursAt(hay[1..], needle, i) <==> OccursAt(hay, needle, i + 1);
      assert !OccursAt(hay, needle, 0);
      assert forall i :: OccursAt(hay, needle, i) ==> i == 0 || OccursAt(hay[1..], needle, i - 1);
      r
  }
}
