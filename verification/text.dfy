/**
 * The parts of .NET string and number handling that the indexing code relies on:
 * `char.IsWhiteSpace`, `string.IsNullOrWhiteSpace`, `Trim`, `Replace`, `Split(...)[^1]`,
 * ordinal case-insensitive comparison, integer formatting and `int.Parse`.
 */
module Text {
  import opened Wrappers

  /** C# `int`. */
  type int32 = x: int | -0x8000_0000 <= x < 0x8000_0000

  /** C# `long`. */
  type int64 = x: int | -0x8000_0000_0000_0000 <= x < 0x8000_0000_0000_0000

  predicate InInt32Range(x: int) {
    -0x8000_0000 <= x < 0x8000_0000
  }

  /** U+FEFF, the byte-order mark; `char.IsWhiteSpace` does not count it as white space. */
  const ByteOrderMark: char := '\U{FEFF}'

  /** `char.IsWhiteSpace`: the Unicode separators plus the controls U+0009..U+000D and U+0085. */
  predicate IsWhiteSpace(c: char) {
    || ('\t' <= c <= '\r')
    || c == ' '
    || c == '\U{0085}'
    || c == '\U{00A0}'
    || c == '\U{1680}'
    || ('\U{2000}' <= c <= '\U{200A}')
    || c == '\U{2028}'
    || c == '\U{2029}'
    || c == '\U{202F}'
    || c == '\U{205F}'
    || c == '\U{3000}'
  }

  /** `string.IsNullOrWhiteSpace`. */
  predicate IsNullOrWhiteSpace(s: Option<string>) {
    match s
    case None => true
    case Some(t) => forall i | 0 <= i < |t| :: IsWhiteSpace(t[i])
  }

  /** Drops the leading characters that satisfy `white`. */
  function TrimStartBy(s: string, white: char -> bool): (r: string)
    ensures |r| <= |s|
    ensures r == [] || !white(r[0])
    ensures forall i | 0 <= i < |s| - |r| :: white(s[i])
  {
    if s != [] && white(s[0]) then TrimStartBy(s[1..], white) else s
  }

  /** What `TrimStartBy` keeps is the suffix of `s` after the cut: character `i` of it is `s[cut + i]`. */
  lemma {:induction false} TrimStartByAt(s: string, white: char -> bool, i: nat)
    requires i < |TrimStartBy(s, white)|
    ensures TrimStartBy(s, white)[i] == s[|s| - |TrimStartBy(s, white)| + i]
  {
    if s != [] && white(s[0]) {
      TrimStartByAt(s[1..], white, i);
    }
  }

  /** Drops the trailing characters that satisfy `white`. */
  function TrimEndBy(s: string, white: char -> bool): (r: string)
    ensures |r| <= |s|
    ensures r == [] || !white(r[|r| - 1])
    ensures forall i | |r| <= i < |s| :: white(s[i])
  {
    if s != [] && white(s[|s| - 1]) then TrimEndBy(s[..|s| - 1], white) else s
  }

  /** What `TrimEndBy` keeps is the prefix of `s` before the cut: character `i` of it is `s[i]`. */
  lemma {:induction false} TrimEndByAt(s: string, white: char -> bool, i: nat)
    requires i < |TrimEndBy(s, white)|
    ensures TrimEndBy(s, white)[i] == s[i]
  {
    if s != [] && white(s[|s| - 1]) {
      TrimEndByAt(s[..|s| - 1], white, i);
    }
  }

  /** How many white-space characters `Trim` cuts off the front of `s`. */
  function LeadingWhiteSpace(s: string): (k: nat)
    ensures k <= |s|
    ensures forall i | 0 <= i < k :: IsWhiteSpace(s[i])
    ensures k < |s| ==> !IsWhiteSpace(s[k])
  {
    var r := TrimStartBy(s, IsWhiteSpace);
    if r != [] then TrimStartByAt(s, IsWhiteSpace, 0); |s| - |r| else |s|
  }

  /** `string.Trim()`: the white space cut off both ends. */
  function Trim(s: string): (r: string)
    ensures |r| <= |s|
  {
    TrimEndBy(TrimStartBy(s, IsWhiteSpace), IsWhiteSpace)
  }

  /**
   * `Trim` keeps the infix of `s` that starts after its leading white space; that infix neither
   * starts nor ends with white space, and everything cut off behind it is white space.
   */
  lemma TrimIsInfix(s: string)
    ensures Trim(s) == [] || (!IsWhiteSpace(Trim(s)[0]) && !IsWhiteSpace(Trim(s)[|Trim(s)| - 1]))
    ensures LeadingWhiteSpace(s) + |Trim(s)| <= |s|
    ensures forall i | 0 <= i < |Trim(s)| :: Trim(s)[i] == s[LeadingWhiteSpace(s) + i]
    ensures forall i | LeadingWhiteSpace(s) + |Trim(s)| <= i < |s| :: IsWhiteSpace(s[i])
  {
    var t := TrimStartBy(s, IsWhiteSpace);
    var r := TrimEndBy(t, IsWhiteSpace);
    if r != [] {
      TrimEndByAt(t, IsWhiteSpace, 0);
    }
    forall i | 0 <= i < |r| ensures r[i] == s[|s| - |t| + i] {
      TrimEndByAt(t, IsWhiteSpace, i);
      TrimStartByAt(s, IsWhiteSpace, i);
    }
    forall i | |s| - |t| + |r| <= i < |s| ensures IsWhiteSpace(s[i]) {
      TrimStartByAt(s, IsWhiteSpace, i - (|s| - |t|));
    }
  }

  /** `s.Replace(c.ToString(), "")`: every `c` removed, all other characters kept in order. */
  function RemoveChar(s: string, c: char): (r: string)
    ensures c !in r
    ensures multiset(r) == multiset(s)[c := 0]
    ensures c !in s ==> r == s
  {
    if s == [] then []
    else
      assert s == [s[0]] + s[1..];
      (if s[0] == c then [] else [s[0]]) + RemoveChar(s[1..], c)
  }

  /**
   * `content.Trim().Replace("\uFEFF", "")`, the clean-up of a blob before it is deserialised:
   * `Trim` keeps a byte order mark (it is not white space), so the mark is removed afterwards.
   */
  function Cleaned(content: string): (r: string)
    ensures ByteOrderMark !in r
  {
    RemoveChar(Trim(content), ByteOrderMark)
  }

  /** `s.Replace(from, to)` on characters: the length is kept and only `from` changes. */
  function ReplaceChar(s: string, from: char, to: char): (r: string)
    ensures |r| == |s|
    ensures forall i | 0 <= i < |s| :: r[i] == (if s[i] == from then to else s[i])
  {
    if s == [] then [] else [if s[0] == from then to else s[0]] + ReplaceChar(s[1..], from, to)
  }

  /**
   * `s.Split(sep)[^1]` (also `.LastOrDefault()`, since `Split` never returns an empty array):
   * the longest suffix of `s` that holds no `sep`.
   */
  function LastSegment(s: string, sep: char): (r: string)
    ensures sep !in r
    ensures |r| <= |s|
  {
    if s == [] then []
    else if s[|s| - 1] == sep then []
    else LastSegment(s[..|s| - 1], sep) + [s[|s| - 1]]
  }

  /**
   * The last segment is the suffix of `s` after its last `sep`: every character of it is the
   * matching character of `s`, and the one before it, if any, is `sep`.
   */
  lemma {:induction false} LastSegmentIsSuffix(s: string, sep: char)
    ensures forall i | 0 <= i < |LastSegment(s, sep)| ::
      LastSegment(s, sep)[i] == s[|s| - |LastSegment(s, sep)| + i]
    ensures |LastSegment(s, sep)| < |s| ==> s[|s| - |LastSegment(s, sep)| - 1] == sep
  {
    if s != [] && s[|s| - 1] != sep {
      var init := s[..|s| - 1];
      var r := LastSegment(s, sep);
      var q := LastSegment(init, sep);
      assert r == q + [s[|s| - 1]];
      LastSegmentIsSuffix(init, sep);
      forall i | 0 <= i < |r| ensures r[i] == s[|s| - |r| + i] {
        if i < |q| {
          assert r[i] == q[i] == init[|init| - |q| + i];
        }
      }
    }
  }

  /** `a + sep + b` splits back into `b` when `b` holds no separator. */
  lemma {:induction false} LastSegmentOfJoin(a: string, sep: char, b: string)
    requires sep !in b
    ensures LastSegment(a + [sep] + b, sep) == b
  {
    var s := a + [sep] + b;
    if b != [] {
      assert s[..|s| - 1] == a + [sep] + b[..|b| - 1];
      LastSegmentOfJoin(a, sep, b[..|b| - 1]);
      assert b == b[..|b| - 1] + [b[|b| - 1]];
    }
  }

  /** Two joins agree only when their parts do, as long as the right parts hold no separator. */
  lemma JoinInjective(a: string, b: string, c: string, d: string, sep: char)
    requires sep !in b && sep !in d
    requires a + [sep] + b == c + [sep] + d
    ensures a == c && b == d
  {
    LastSegmentOfJoin(a, sep, b);
    LastSegmentOfJoin(c, sep, d);
    var k := a + [sep] + b;
    assert a == k[..|a|];
    assert c == k[..|c|];
  }

  /** A string without the separator is its own last segment. */
  lemma LastSegmentWithoutSeparator(s: string, sep: char)
    requires sep !in s
    ensures LastSegment(s, sep) == s
  {
    var r := LastSegment(s, sep);
    LastSegmentIsSuffix(s, sep);
    assert forall j | 0 <= j < |s| :: s[j] != sep;
  }

  /** Ordinal upper-casing, on the ASCII letters the property names are made of. */
  function ToUpperAscii(c: char): char {
    if 'a' <= c <= 'z' then (c as int - 32) as char else c
  }

  /** `string.Equals(a, b, StringComparison.OrdinalIgnoreCase)` on ASCII text. */
  predicate EqualsIgnoreCase(a: string, b: string) {
    |a| == |b| && forall i | 0 <= i < |a| :: ToUpperAscii(a[i]) == ToUpperAscii(b[i])
  }

  predicate IsDigit(c: char) {
    '0' <= c <= '9'
  }

  predicate AllDigits(s: string) {
    forall i | 0 <= i < |s| :: IsDigit(s[i])
  }

  function DigitValue(c: char): nat
    requires IsDigit(c)
  {
    c as int - '0' as int
  }

  function DigitChar(d: nat): (c: char)
    requires d < 10
    ensures IsDigit(c) && DigitValue(c) == d
  {
    ('0' as int + d) as char
  }

  /** `n.ToString()` for `n >= 0`: decimal digits without leading zeros. */
  function NatToString(n: nat): (r: string)
    ensures r != []
  {
    if n < 10 then [DigitChar(n)] else NatToString(n / 10) + [DigitChar(n % 10)]
  }

  /** The text of a natural number is all digits, with no leading zero unless it is 0. */
  lemma {:induction false} NatToStringDigits(n: nat)
    ensures AllDigits(NatToString(n))
    ensures NatToString(n)[0] == '0' ==> n == 0
  {
    if n >= 10 {
      NatToStringDigits(n / 10);
    }
  }

  /** `n.ToString()` (and `$"{n}"`) for any integer: a minus sign, then the digits of `|n|`. */
  function IntToString(n: int): (r: string)
    ensures r != []
  {
    if n < 0 then "-" + NatToString(-n) else NatToString(n)
  }

  /** The text of an integer is its digits, after a minus sign when it is negative. */
  lemma IntToStringDigits(n: int)
    ensures n >= 0 ==> AllDigits(IntToString(n))
    ensures n < 0 ==> IntToString(n)[0] == '-' && AllDigits(IntToString(n)[1..])
  {
    if n < 0 {
      NatToStringDigits(-n);
      assert IntToString(n)[1..] == NatToString(-n);
    } else {
      NatToStringDigits(n);
    }
  }

  /** The number a string of decimal digits denotes. */
  function DigitsValue(s: string): nat
    requires AllDigits(s)
  {
    if s == [] then 0 else 10 * DigitsValue(s[..|s| - 1]) + DigitValue(s[|s| - 1])
  }

  lemma {:induction false} DigitsRoundTrip(n: nat)
    ensures AllDigits(NatToString(n)) && DigitsValue(NatToString(n)) == n
  {
    NatToStringDigits(n);
    if n >= 10 {
      DigitsRoundTrip(n / 10);
      var s := NatToString(n);
      assert s[..|s| - 1] == NatToString(n / 10);
    }
  }

  /** Integer syntax without bounds: an optional `+` or `-`, then one or more decimal digits. */
  function ParseInteger(s: string): Option<int> {
    if s == [] then None
    else if s[0] == '-' || s[0] == '+' then
      if |s| > 1 && AllDigits(s[1..])
      then Some(if s[0] == '-' then 0 - DigitsValue(s[1..]) else DigitsValue(s[1..]))
      else None
    else if AllDigits(s) then Some(DigitsValue(s))
    else None
  }

  /** Parsing the decimal text of any integer gives the integer back. */
  lemma ParseIntegerRoundTrip(n: int)
    ensures ParseInteger(IntToString(n)) == Some(n)
  {
    var s := IntToString(n);
    if n < 0 {
      assert s[1..] == NatToString(-n);
      DigitsRoundTrip(-n);
    } else {
      DigitsRoundTrip(n);
    }
  }

  /** Distinct integers have distinct decimal texts. */
  lemma IntToStringInjective(a: int, b: int)
    requires IntToString(a) == IntToString(b)
    ensures a == b
  {
    ParseIntegerRoundTrip(a);
    ParseIntegerRoundTrip(b);
  }

  /** The white space `int.Parse` skips around a number (NumberStyles.Integer). */
  predicate IsNumberWhite(c: char) {
    c == ' ' || '\t' <= c <= '\r'
  }

  /**
   * `int.Parse` / `int.TryParse` with NumberStyles.Integer: surrounding white space, an optional
   * sign and decimal digits. `None` stands for the FormatException or OverflowException
   * (`false` for `TryParse`).
   */
  function ParseInt32(s: string): (r: Option<int32>)
    ensures s == [] ==> r.None?
    decreases |s|
  {
    if s != [] && IsNumberWhite(s[0]) then ParseInt32(s[1..])
    else if s != [] && IsNumberWhite(s[|s| - 1]) then ParseInt32(s[..|s| - 1])
    else match ParseInteger(s)
      case Some(v) => if InInt32Range(v) then Some(v as int32) else None
      case None => None
  }

  /** `ParseInt32` parses what is left once the white space around the number is trimmed. */
  lemma {:induction false} ParseInt32Trims(s: string)
    ensures var t := TrimEndBy(TrimStartBy(s, IsNumberWhite), IsNumberWhite);
      ParseInt32(s) == match ParseInteger(t)
        case Some(v) => if InInt32Range(v) then Some(v as int32) else None
        case None => None
  {
    if s != [] && IsNumberWhite(s[0]) {
      ParseInt32Trims(s[1..]);
    } else if s != [] && IsNumberWhite(s[|s| - 1]) {
      var u := s[..|s| - 1];
      ParseInt32Trims(u);
      assert u[0] == s[0];
      assert TrimStartBy(s, IsNumberWhite) == s;
      assert TrimStartBy(u, IsNumberWhite) == u;
      assert TrimEndBy(s, IsNumberWhite) == TrimEndBy(u, IsNumberWhite);
    } else {
      assert TrimStartBy(s, IsNumberWhite) == s;
      assert TrimEndBy(s, IsNumberWhite) == s;
    }
  }

  /** `int.Parse(n.ToString()) == n` for every `int`. */
  lemma ParseInt32RoundTrip(n: int32)
    ensures ParseInt32(IntToString(n)) == Some(n)
  {
    var s := IntToString(n);
    IntToStringDigits(n);
    assert !IsNumberWhite(s[0]) && !IsNumberWhite(s[|s| - 1]);
    ParseIntegerRoundTrip(n);
  }
}
