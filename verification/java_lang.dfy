/** The parts of the Java platform that the two tools lean on: 32-bit `int`
    arithmetic, the truncating `%` operator, `Integer.toString`,
    `Integer.parseInt`, `String.equalsIgnoreCase` and `String.getBytes(UTF_8)`. */
module JavaLang {

  datatype Option<+T> = None | Some(value: T)

  const INT_MIN: int := -0x8000_0000
  const INT_MAX: int := 0x7fff_ffff

  /** A Java `int`. */
  type Int32 = x: int | INT_MIN <= x <= INT_MAX

  /** One octet of a byte payload (a Java `byte`, read as 0..255). */
  type Octet = x: int | 0 <= x < 256

  function Abs(x: int): nat { if x < 0 then -x else x }

  /** Two's-complement wrap-around of an `int` expression that may leave the range. */
  function Wrap32(x: int): (r: Int32)
    ensures INT_MIN <= x <= INT_MAX ==> r == x
    ensures (x - r) % 0x1_0000_0000 == 0
  {
    (x - INT_MIN) % 0x1_0000_0000 + INT_MIN
  }

  /** Java's `a % b`: the remainder of the division truncated toward zero, so
      it takes the sign of `a` (Dafny's own `%` never goes negative). */
  function Rem(a: int, b: int): int
    requires b != 0
  {
    var m := Abs(a) % Abs(b);
    if a >= 0 then m else -m
  }

  /** The remainder is smaller than the divisor in magnitude, never has the
      opposite sign to the dividend, and agrees with the Euclidean remainder
      for a dividend that is not negative. */
  lemma RemProperties(a: int, b: int)
    requires b != 0
    ensures -(Abs(b) as int) < Rem(a, b) < Abs(b)
    ensures a >= 0 ==> Rem(a, b) == a % Abs(b)
    ensures a <= 0 ==> Rem(a, b) <= 0
    ensures Rem(a, b) == 0 <==> Rem(a, -b) == 0
  {
  }

  // ----- Integer.toString and Integer.parseInt (decimal, ASCII digits) -----

  predicate IsDigit(c: char) { '0' <= c <= '9' }

  predicate AllDigits(s: string) { forall i :: 0 <= i < |s| ==> IsDigit(s[i]) }

  function DigitChar(d: int): (c: char)
    requires 0 <= d < 10
    ensures IsDigit(c) && c as int - '0' as int == d
  {
    ('0' as int + d) as char
  }

  /** The decimal digits of a non-negative number, most significant first. */
  function ShowNat(n: nat): (s: string)
    ensures |s| >= 1 && AllDigits(s)
    decreases n
  {
    if n < 10 then [DigitChar(n)] else ShowNat(n / 10) + [DigitChar(n % 10)]
  }

  /** `Integer.toString(n)`. */
  function Show(n: int): string
  {
    if n < 0 then "-" + ShowNat(-n) else ShowNat(n)
  }

  /** The number a string of decimal digits denotes. */
  function DigitsValue(s: string): nat
    requires AllDigits(s)
  {
    if s == [] then 0 else DigitsValue(s[..|s| - 1]) * 10 + (s[|s| - 1] as int - '0' as int)
  }

  /** The decimal numerals: a digit, or a sign followed by at least one
      digit, then digits only. */
  predicate Numeral(s: string)
  {
    |s| >= 1 && AllDigits(s[1..]) && (IsDigit(s[0]) || (|s| >= 2 && (s[0] == '-' || s[0] == '+')))
  }

  /** The number a numeral denotes, read from its first character. */
  function NumeralValue(s: string): int
    requires Numeral(s)
  {
    var tail: int := DigitsValue(s[1..]);
    if s[0] == '-' then -tail
    else if s[0] == '+' then tail
    else (s[0] as int - '0' as int) * Power10(|s| - 1) + tail
  }

  function Power10(n: nat): nat
  {
    if n == 0 then 1 else 10 * Power10(n - 1)
  }

  /** `Integer.parseInt(s)`: an optional sign, at least one digit, and a value
      that fits an `int`; anything else raises NumberFormatException (None). */
  function ParseInt(s: string): (r: Option<Int32>)
    ensures r.Some? <==> Numeral(s) && INT_MIN <= NumeralValue(s) <= INT_MAX
    ensures r.Some? ==> r.value == NumeralValue(s)
    ensures r.Some? && r.value < 0 ==> s[0] == '-'
  {
    var signed := |s| > 0 && (s[0] == '-' || s[0] == '+');
    var digits := if signed then s[1..] else s;
    DigitsSplit(s);
    if digits == [] || !AllDigits(digits) then None
    else
      var v: int := if signed && s[0] == '-' then -(DigitsValue(digits) as int) else DigitsValue(digits);
      if INT_MIN <= v <= INT_MAX then Some(v) else None
  }

  /** An unsigned numeral is a string of digits, whose value is its first
      digit's place value plus the value of the rest. */
  lemma DigitsSplit(s: string)
    ensures |s| >= 1 && IsDigit(s[0]) ==> (Numeral(s) <==> AllDigits(s))
    ensures |s| >= 1 && AllDigits(s) ==> DigitsValue(s) == NumeralValue(s)
  {
    if |s| >= 1 && IsDigit(s[0]) {
      assert forall i :: 1 <= i < |s| ==> s[i] == s[1..][i - 1];
      if AllDigits(s) {
        DigitsValueFirst(s);
      }
    }
  }

  lemma {:induction false} DigitsValueFirst(s: string)
    requires |s| >= 1 && AllDigits(s)
    ensures DigitsValue(s) == (s[0] as int - '0' as int) * Power10(|s| - 1) + DigitsValue(s[1..])
    decreases |s|
  {
    if |s| > 1 {
      var p := s[..|s| - 1];
      var last := s[|s| - 1] as int - '0' as int;
      DigitsValueFirst(p);
      assert p[1..] == s[1..][..|s[1..]| - 1];
      assert DigitsValue(s[1..]) == DigitsValue(p[1..]) * 10 + last;
      PlaceValue(s[0] as int - '0' as int, Power10(|s| - 2), DigitsValue(p[1..]), last);
    } else {
      assert s[1..] == [] && s[..0] == [];
    }
  }

  lemma PlaceValue(d: int, p: int, r: int, l: int)
    ensures (d * p + r) * 10 + l == d * (10 * p) + (r * 10 + l)
  {
  }


  lemma {:induction false} DigitsValueOfShowNat(n: nat)
    ensures DigitsValue(ShowNat(n)) == n
    decreases n
  {
    if n >= 10 {
      var s := ShowNat(n);
      DigitsValueOfShowNat(n / 10);
      assert s[..|s| - 1] == ShowNat(n / 10);
    }
  }

  /** Reading back what `Integer.toString` wrote gives the same `int`. */
  lemma ParseIntOfShow(n: Int32)
    ensures ParseInt(Show(n)) == Some(n)
  {
    var s := Show(n);
    if n < 0 {
      var t := ShowNat(-(n as int));
      DigitsValueOfShowNat(-(n as int));
      assert s == "-" + t && s[0] == '-';
      assert s[1..] == t;
    } else {
      DigitsValueOfShowNat(n);
      assert s == ShowNat(n) && IsDigit(s[0]);
    }
  }

  /** Spellings other than `Integer.toString`'s are accepted too: a plus
      sign, leading zeros and a negative zero. */
  lemma ParseIntExamples()
    ensures ParseInt("+5") == Some(5)
    ensures ParseInt("007") == Some(7)
    ensures ParseInt("-0") == Some(0)
  {
    assert "+5"[1..] == "5";
    assert "-0"[1..] == "0";
    assert "007"[1..] == "07" && "07"[..1] == "0";
  }

  /** A trailing letter, a sign alone and a value past `Integer.MAX_VALUE`
      are refused. */
  lemma ParseIntRefusals()
    ensures ParseInt("1x") == None
    ensures ParseInt("-") == None
    ensures ParseInt("3000000000") == None
  {
    assert "1x"[1] == 'x' && !IsDigit('x');
    TooBig();
  }

  /** Three thousand million does not fit an `int`. */
  lemma TooBig()
    ensures NumeralValue("3000000000") > INT_MAX
  {
    var big := "3000000000";
    assert big[1..] == "000000000";
    assert Power10(9) == 1000000000;
  }

  // ----- String.equalsIgnoreCase -----

  /** `Character.toUpperCase`, restricted to the mappings whose result is an
      ASCII letter: the ASCII lower-case letters, dotless i and long s. */
  function UpperCase(c: char): char
  {
    if 'a' <= c <= 'z' then (c as int - 32) as char
    else if c == '\U{0131}' then 'I'
    else if c == '\U{017F}' then 'S'
    else c
  }

  /** `Character.toLowerCase`, restricted to the mappings whose result is an
      ASCII letter: the ASCII capitals, capital I with dot and the Kelvin sign. */
  function LowerCase(c: char): char
  {
    if 'A' <= c <= 'Z' then (c as int + 32) as char
    else if c == '\U{0130}' then 'i'
    else if c == '\U{212A}' then 'k'
    else c
  }

  /** The per-character test of `String.regionMatches(true, ...)`. */
  predicate CharEqualsIgnoreCase(a: char, b: char)
  {
    a == b || UpperCase(a) == UpperCase(b) || LowerCase(UpperCase(a)) == LowerCase(UpperCase(b))
  }

  /** `s.equalsIgnoreCase(t)`. Exact whenever `t` is made of ASCII capitals and
      underscores, which is how the tools use it. */
  predicate EqualsIgnoreCase(s: string, t: string)
  {
    |s| == |t| && forall i :: 0 <= i < |s| ==> CharEqualsIgnoreCase(s[i], t[i])
  }

  // ----- String.getBytes(StandardCharsets.UTF_8) -----

  function Utf8Char(c: char): (r: seq<Octet>)
    ensures 1 <= |r| <= 4
    ensures |r| == 1 <==> c as int < 0x80
  {
    var v := c as int;
    if v < 0x80 then [v]
    else if v < 0x800 then [0xC0 + v / 0x40, 0x80 + v % 0x40]
    else if v < 0x1_0000 then [0xE0 + v / 0x1000, 0x80 + (v / 0x40) % 0x40, 0x80 + v % 0x40]
    else [0xF0 + v / 0x4_0000, 0x80 + (v / 0x1000) % 0x40, 0x80 + (v / 0x40) % 0x40, 0x80 + v % 0x40]
  }

  /** The UTF-8 encoding of a string. */
  function Utf8(s: string): seq<Octet>
  {
    if s == [] then [] else Utf8Char(s[0]) + Utf8(s[1..])
  }

  /** The encoding takes one to four octets per character, and one exactly
      per character for an ASCII string. */
  lemma {:induction false} Utf8Length(s: string)
    ensures |s| <= |Utf8(s)| <= 4 * |s|
    ensures (forall i :: 0 <= i < |s| ==> s[i] as int < 0x80) ==> |Utf8(s)| == |s|
    decreases |s|
  {
    if s != [] {
      Utf8Length(s[1..]);
      assert forall i :: 0 <= i < |s[1..]| ==> s[1..][i] == s[i + 1];
    }
  }
}
