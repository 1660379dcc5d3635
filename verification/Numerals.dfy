/** Decimal numerals: source/utility.c:55-108 and 203-273. Texts end where a C string has its null. */
module Numerals {
  import opened Bytes
  import opened Machine

  predicate IsDigit(c: char) { '0' <= c <= '9' }

  function Digit(d: nat): (c: char)
    requires d < 10
    ensures IsDigit(c) && DigitValue(c) == d
  {
    '0' + d as char
  }

  function DigitValue(c: char): (d: nat)
    requires IsDigit(c)
    ensures d < 10
  {
    (c - '0') as nat
  }

  /** The digits of a number without leading zeros. */
  function Decimal(n: nat): (s: string)
    ensures s != [] && forall k :: 0 <= k < |s| ==> IsDigit(s[k])
  {
    if n < 10 then [Digit(n)] else Decimal(n / 10) + [Digit(n % 10)]
  }

  function SignedDecimal(n: int): string {
    if n < 0 then "-" + Decimal(-n) else Decimal(n)
  }

  predicate AllDigits(s: string) { forall k :: 0 <= k < |s| ==> IsDigit(s[k]) }

  function ValueOf(s: string): nat
    requires AllDigits(s)
  {
    if s == [] then 0 else 10 * ValueOf(s[..|s| - 1]) + DigitValue(s[|s| - 1])
  }

  lemma {:induction false} ValueOfDecimal(n: nat)
    ensures ValueOf(Decimal(n)) == n
  {
    if n >= 10 {
      ValueOfDecimal(n / 10);
      var s := Decimal(n);
      assert s[..|s| - 1] == Decimal(n / 10);
    }
  }

  lemma {:induction false} DecimalLength(n: nat, k: nat)
    requires 0 < k && n < Power(10, k)
    ensures |Decimal(n)| <= k
  {
    if n >= 10 {
      DecimalLength(n / 10, k - 1);
    }
  }

  // ---------------------------------------------------------------- printing

  /** my_utoa: the digits are laid down from the end of a buffer of 32 characters. */
  method Utoa(num: nat) returns (s: string)
    requires num < TWO_64
    ensures s == Decimal(num)
  {
    var buf := new char[32];
    var p := PutDigits(buf, num);
    s := buf[p..30];
  }

  lemma TwentyDigits()
    ensures TWO_64 < Power(10, 20)
  {
    assert Power(10, 2) == 100;
    assert Power(10, 4) == 10000;
    assert Power(10, 6) == 1000000;
    assert Power(10, 8) == 100000000;
    assert Power(10, 10) == 10000000000;
    assert Power(10, 12) == 1000000000000;
    assert Power(10, 14) == 100000000000000;
    assert Power(10, 16) == 10000000000000000;
    assert Power(10, 18) == 1000000000000000000;
    assert Power(10, 20) == 100000000000000000000;
  }

  method PutDigits(buf: array<char>, num: nat) returns (p: nat)
    requires buf.Length == 32 && num < TWO_64
    modifies buf
    ensures 10 <= p < 30 && buf[p..30] == Decimal(num)
  {
    p := 30;
    var left: nat := num;
    ghost var k := 20;
    TwentyDigits();
    assert buf[p..30] == [];
    while true
      invariant 0 < k <= 20 && p == 10 + k && left < Power(10, k)
      invariant Decimal(num) == Decimal(left) + buf[p..30]
      decreases left
    {
      assert left >= 10 ==> k > 1 by { assert Power(10, 1) == 10; }
      p := p - 1;
      buf[p] := Digit(left % 10);
      assert buf[p..30] == [Digit(left % 10)] + buf[p + 1..30];
      left := left / 10;
      if left == 0 {
        break;
      }
      k := k - 1;
    }
  }

  /** my_itoa */
  method Itoa(num: int) returns (s: string)
    requires -TWO_63 < num < TWO_63
    ensures s == SignedDecimal(num)
  {
    var buf := new char[32];
    var p := PutDigits(buf, if num < 0 then -num else num);
    if num < 0 {
      p := p - 1;
      buf[p] := '-';
      assert buf[p + 1..30] == Decimal(-num);
      assert buf[p..30] == ['-'] + buf[p + 1..30];
    }
    s := buf[p..30];
  }

  // ---------------------------------------------------------------- reading

  function Blanks(s: string): (n: nat)
    ensures n <= |s|
  {
    if s == "" || s[0] != ' ' then 0 else 1 + Blanks(s[1..])
  }

  function Digits(s: string): (n: nat)
    ensures n <= |s| && AllDigits(s[..n])
  {
    if s == "" || !IsDigit(s[0]) then 0
    else
      var n := Digits(s[1..]);
      assert s[..1 + n] == [s[0]] + s[1..][..n];
      1 + n
  }

  /** A number read and the characters consumed; none means that there is no digit. */
  datatype Read = Read(value: int, count: nat)

  function ReadUnsigned(s: string): (r: Read)
    ensures r.count <= |s| && 0 <= r.value < TWO_64
  {
    var b := Blanks(s);
    var d := Digits(s[b..]);
    if d == 0 then Read(0, 0) else Read(ValueOf(s[b..][..d]) % TWO_64, b + d)
  }

  /** A C `int` holds the digits read so far. */
  function ReadSigned(s: string): (r: Read)
    ensures r.count <= |s| && -TWO_31 <= r.value < TWO_31
  {
    var b := Blanks(s);
    var neg := b < |s| && s[b] == '-';
    var c := if neg then b + 1 else b;
    var d := Digits(s[c..]);
    var v := Wrap32(ValueOf(s[c..][..d]));
    if d == 0 then Read(0, 0) else Read(if neg then Wrap32(-v) else v, c + d)
  }

  lemma {:induction false} DigitsStep(s: string, i: nat)
    requires i <= Digits(s)
    ensures i < Digits(s) <==> i < |s| && IsDigit(s[i])
  {
    if i > 0 {
      DigitsStep(s[1..], i - 1);
    }
  }

  lemma {:induction false} BlanksStep(s: string, i: nat)
    requires i <= Blanks(s)
    ensures i < Blanks(s) <==> i < |s| && s[i] == ' '
  {
    if i > 0 {
      BlanksStep(s[1..], i - 1);
    }
  }

  method SkipBlanks(s: string) returns (p: nat)
    ensures p == Blanks(s)
  {
    p := 0;
    while true
      invariant p <= Blanks(s)
      decreases |s| - p
    {
      BlanksStep(s, p);
      if p == |s| || s[p] != ' ' {
        return;
      }
      p := p + 1;
    }
  }

  lemma AnotherDigit(s: string, p: nat)
    requires p < |s| && AllDigits(s[..p + 1])
    ensures AllDigits(s[..p]) && IsDigit(s[p]) && ValueOf(s[..p + 1]) == 10 * ValueOf(s[..p]) + DigitValue(s[p])
  {
    assert s[..p + 1][p] == s[p];
    assert s[..p + 1][..p] == s[..p];
    forall k | 0 <= k < p ensures IsDigit(s[..p][k]) { assert s[..p][k] == s[..p + 1][k]; }
  }

  lemma Prefix(s: string, p: nat)
    requires p <= Digits(s)
    ensures AllDigits(s[..p])
  {
    forall k | 0 <= k < p ensures IsDigit(s[..p][k]) { assert s[..p][k] == s[..Digits(s)][k]; }
  }

  /** my_atou */
  method Atou(s: string) returns (r: Read)
    ensures r == ReadUnsigned(s)
  {
    var c1 := SkipBlanks(s);
    var t := s[c1..];
    var i, p := 0, 0;
    while true
      invariant p <= Digits(t) && AllDigits(t[..p]) && i == ValueOf(t[..p]) % TWO_64
      decreases |t| - p
    {
      DigitsStep(t, p);
      if p == |t| || !IsDigit(t[p]) {
        break;
      }
      Prefix(t, p + 1);
      AnotherDigit(t, p);
      WrapStep(ValueOf(t[..p]), DigitValue(t[p]));
      i := (i * 10 + DigitValue(t[p])) % TWO_64;
      p := p + 1;
    }
    r := if p == 0 then Read(0, 0) else Read(i, c1 + p);
  }

  lemma WrapStep(v: nat, d: nat)
    ensures ((v % TWO_64) * 10 + d) % TWO_64 == (10 * v + d) % TWO_64
  {
    var q := v / TWO_64;
    assert 10 * v + d == (v % TWO_64) * 10 + d + (10 * q) * TWO_64;
    ModMore((v % TWO_64) * 10 + d, 10 * q, TWO_64);
  }

  lemma WrapStep32(v: nat, d: nat)
    ensures Wrap32(Wrap32(v) * 10 + d) == Wrap32(10 * v + d)
  {
    var w := Wrap32(v);
    var q := (v + TWO_31) / TWO_32;
    assert v == w + q * TWO_32;
    assert 10 * v + d + TWO_31 == w * 10 + d + TWO_31 + (10 * q) * TWO_32;
    ModMore(w * 10 + d + TWO_31, 10 * q, TWO_32);
  }

  lemma {:induction false} ModMore(a: int, q: nat, m: int)
    requires m > 0
    ensures (a + q * m) % m == a % m
  {
    var x := a + q * m;
    assert x == m * (a / m + q) + a % m by {
      assert m * (a / m + q) == m * (a / m) + q * m;
    }
    DivUnique(x, m, a / m + q, a % m);
  }

  lemma DivUnique(x: int, m: int, q: int, r: int)
    requires m > 0 && 0 <= r < m && x == m * q + r
    ensures x % m == r && x / m == q
  {
    var d := x / m - q;
    assert m * d == r - x % m by {
      assert m * (x / m) + x % m == x;
      assert m * d == m * (x / m) - m * q;
    }
    Small(m, d);
  }

  lemma Small(m: int, d: int)
    requires -m < m * d < m
    ensures d == 0
  {
  }

  /** my_atoi */
  method Atoi(s: string) returns (r: Read)
    ensures r == ReadSigned(s)
  {
    var c1 := SkipBlanks(s);
    var sign := c1 < |s| && s[c1] == '-';
    if sign {
      c1 := c1 + 1;
    }
    var t := s[c1..];
    var i, p := 0, 0;
    while true
      invariant p <= Digits(t) && AllDigits(t[..p]) && i == Wrap32(ValueOf(t[..p]))
      decreases |t| - p
    {
      DigitsStep(t, p);
      if p == |t| || !IsDigit(t[p]) {
        break;
      }
      Prefix(t, p + 1);
      AnotherDigit(t, p);
      WrapStep32(ValueOf(t[..p]), DigitValue(t[p]));
      i := Wrap32(i * 10 + DigitValue(t[p]));
      p := p + 1;
    }
    if sign {
      i := Wrap32(-i);
    }
    r := if p == 0 then Read(0, 0) else Read(i, c1 + p);
  }

  // ---------------------------------------------------------------- round trips

  lemma {:induction false} DigitsAll(s: string)
    requires AllDigits(s)
    ensures Digits(s) == |s|
  {
    if s != [] { DigitsAll(s[1..]); }
  }

  lemma UnsignedRoundTrip(n: nat)
    requires n < TWO_64
    ensures ReadUnsigned(Decimal(n)) == Read(n, |Decimal(n)|)
  {
    hide Decimal, Digits, ValueOf;
    var s := Decimal(n);
    assert IsDigit(s[0]);
    assert Blanks(s) == 0;
    assert s[0..] == s && s[..|s|] == s;
    DigitsAll(s);
    ValueOfDecimal(n);
  }

  /** Only numbers a C `int` holds survive; a sign is read and a digit string is not. */
  lemma SignedRoundTrip(n: int)
    ensures ReadSigned(SignedDecimal(n)) == Read(Wrap32(n), |SignedDecimal(n)|)
  {
    var m: nat := if n < 0 then -n else n;
    var d := Decimal(m);
    var s := SignedDecimal(n);
    assert Blanks(s) == 0;
    DigitsAll(d);
    ValueOfDecimal(m);
    assert (if n < 0 then s[1..] else s[0..]) == d && d[..|d|] == d;
    if n < 0 { NegateWrapped(m); }
  }

  lemma NegateWrapped(m: int)
    requires m >= 0
    ensures Wrap32(-Wrap32(m)) == Wrap32(-m)
  {
    var w := Wrap32(m);
    var q := (m + TWO_31) / TWO_32;
    assert m == w + q * TWO_32;
    assert 0 - w + TWO_31 == 0 - m + TWO_31 + q * TWO_32;
    ModMore(0 - m + TWO_31, q, TWO_32);
  }
}
