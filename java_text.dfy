/**
 * The few pieces of java.lang the binding leans on, written out over
 * `string` (= seq<char>): 32-bit `int`, Integer.toString, Integer.parseInt,
 * String.format("%02d"), String.split on a one-character separator and
 * String.equalsIgnoreCase restricted to ASCII letters.
 */
module JavaText {
  import opened Wrappers

  const INT_MIN: int := -0x8000_0000
  const INT_MAX: int := 0x7FFF_FFFF

  /** A Java `int`. */
  type Int32 = x: int | INT_MIN <= x <= INT_MAX

  /** `x++` on a Java `int`: wraps from Integer.MAX_VALUE to Integer.MIN_VALUE. */
  function Inc32(x: Int32): (r: Int32)
    ensures x < INT_MAX ==> r == x + 1
    ensures x == INT_MAX ==> r == INT_MIN
  {
    if x == INT_MAX then INT_MIN else x + 1
  }

  predicate IsDigit(c: char) { '0' <= c <= '9' }

  predicate AllDigits(s: string) { forall i :: 0 <= i < |s| ==> IsDigit(s[i]) }

  function DigitChar(d: nat): (c: char)
    requires d < 10
    ensures IsDigit(c)
  {
    ('0' as int + d) as char
  }

  function DigitValue(c: char): (d: nat)
    requires IsDigit(c)
    ensures d < 10
  {
    c as int - '0' as int
  }

  /** The value of a string of decimal digits, most significant first. */
  function DigitsValue(s: string): nat
    requires AllDigits(s)
  {
    if s == [] then 0 else DigitsValue(s[..|s| - 1]) * 10 + DigitValue(s[|s| - 1])
  }

  /** Decimal rendering of a natural number, without leading zeros. */
  function NatToDecimal(n: nat): (s: string)
    ensures |s| >= 1 && AllDigits(s)
    ensures n >= 10 ==> s[0] != '0'
    decreases n
  {
    if n < 10 then [DigitChar(n)] else NatToDecimal(n / 10) + [DigitChar(n % 10)]
  }

  /** Integer.toString(x). */
  function IntToDecimal(x: int): (s: string)
    ensures |s| >= 1
    ensures ':' !in s
  {
    if x < 0 then "-" + NatToDecimal(-x) else NatToDecimal(x)
  }

  /** String.format("%02d", t): at least two characters, zero-padded; the sign counts towards the width. */
  function Pad2(t: int): (s: string)
    ensures |s| >= 2
    ensures ':' !in s
  {
    if 0 <= t < 10 then "0" + NatToDecimal(t) else IntToDecimal(t)
  }

  /**
   * Integer.parseInt(s) for ASCII input: an optional '+' or '-' followed by at
   * least one digit, whose value fits in an `int`; None where Java throws
   * NumberFormatException.
   */
  function ParseInt(s: string): (r: Option<Int32>)
    ensures r.Some? ==> |s| >= 1
  {
    if |s| == 0 then None
    else if s[0] == '-' || s[0] == '+' then
      if |s| == 1 || !AllDigits(s[1..]) then None
      else
        var d: int := DigitsValue(s[1..]);
        var v := if s[0] == '-' then -d else d;
        if INT_MIN <= v <= INT_MAX then Some(v) else None
    else if !AllDigits(s) then None
    else
      var v := DigitsValue(s);
      if v <= INT_MAX then Some(v) else None
  }

  lemma {:induction false} DigitsValueOfDecimal(n: nat)
    ensures DigitsValue(NatToDecimal(n)) == n
    decreases n
  {
    if n >= 10 {
      var s := NatToDecimal(n);
      DigitsValueOfDecimal(n / 10);
      assert s[..|s| - 1] == NatToDecimal(n / 10);
    }
  }

  /** Integer.parseInt undoes Integer.toString on every `int`. */
  lemma IntToDecimalRoundTrip(x: Int32)
    ensures ParseInt(IntToDecimal(x)) == Some(x)
  {
    if x < 0 {
      var s := IntToDecimal(x);
      var n: int := x;
      DigitsValueOfDecimal(-n);
      assert s[1..] == NatToDecimal(-n);
    } else {
      DigitsValueOfDecimal(x);
    }
  }

  /** Integer.parseInt undoes String.format("%02d") on every `int`. */
  lemma Pad2RoundTrip(t: Int32)
    ensures ParseInt(Pad2(t)) == Some(t)
  {
    if 0 <= t < 10 {
      var s := Pad2(t);
      assert s == ['0', DigitChar(t)];
      assert s[..1] == ['0'];
      assert DigitsValue(s) == DigitsValue(['0']) * 10 + t;
    } else {
      IntToDecimalRoundTrip(t);
    }
  }

  /** Every piece between separators, empty pieces included; there is always one more piece than separators. */
  function Pieces(s: string, sep: char): (parts: seq<string>)
    ensures |parts| >= 1
    ensures forall i :: 0 <= i < |parts| ==> sep !in parts[i]
  {
    if s == [] then [[]]
    else
      var rest := Pieces(s[1..], sep);
      if s[0] == sep then [[]] + rest else [[s[0]] + rest[0]] + rest[1..]
  }

  function StripTrailingEmpty(parts: seq<string>): (r: seq<string>)
    ensures |r| <= |parts| && r == parts[..|r|]
    ensures |r| > 0 ==> r[|r| - 1] != []
  {
    if parts == [] then []
    else if parts[|parts| - 1] == [] then StripTrailingEmpty(parts[..|parts| - 1])
    else parts
  }

  /**
   * s.split(sep) for a separator that is not a regex metacharacter: the input
   * itself when the separator does not occur, otherwise the pieces with the
   * trailing empty ones removed (a leading empty piece is kept).
   */
  function Split(s: string, sep: char): (parts: seq<string>)
    ensures forall i :: 0 <= i < |parts| ==> sep !in parts[i]
  {
    if sep !in s then [s] else StripTrailingEmpty(Pieces(s, sep))
  }

  lemma {:induction false} PiecesOfFree(s: string, sep: char)
    requires sep !in s
    ensures Pieces(s, sep) == [s]
  {
    if s != [] {
      PiecesOfFree(s[1..], sep);
      assert [s[0]] + s[1..] == s;
    }
  }

  lemma {:induction false} PiecesOfPrefixed(h: string, sep: char, t: string)
    requires sep !in h
    ensures Pieces(h + t, sep) == [h + Pieces(t, sep)[0]] + Pieces(t, sep)[1..]
  {
    if h != [] {
      assert (h + t)[1..] == h[1..] + t;
      PiecesOfPrefixed(h[1..], sep, t);
      assert [h[0]] + (h[1..] + Pieces(t, sep)[0]) == h + Pieces(t, sep)[0];
    } else {
      var p := Pieces(t, sep);
      assert h + t == t && h + p[0] == p[0];
      assert [p[0]] + p[1..] == p;
    }
  }

  /** Splitting a rendered "H:M" gives back its two parts, provided the second is not empty. */
  lemma SplitJoin(h: string, m: string)
    requires ':' !in h && ':' !in m && m != []
    ensures Split(h + ":" + m, ':') == [h, m]
  {
    var s := h + ":" + m;
    assert s[|h|] == ':';
    PiecesOfFree(m, ':');
    assert ":" + m == [':'] + m;
    assert Pieces(":" + m, ':') == [[]] + Pieces(m, ':');
    assert s == h + (":" + m);
    PiecesOfPrefixed(h, ':', ":" + m);
    assert h + [] == h;
  }

  /** ASCII case folding, as Character.toLowerCase does on the letters A-Z. */
  function LowerAscii(c: char): char
  {
    if 'A' <= c <= 'Z' then (c as int + 32) as char else c
  }

  /** String.equalsIgnoreCase, restricted to ASCII case folding. */
  predicate EqualsIgnoreCase(a: string, b: string)
  {
    |a| == |b| && forall i :: 0 <= i < |a| ==> LowerAscii(a[i]) == LowerAscii(b[i])
  }
}
