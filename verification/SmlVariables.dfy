/** What the decoders store in variables, put into a message again: `convert` reads it
    (source/secs_encode_sml.c:171-850). */
module SmlVariables {
  import opened Bytes
  import opened Machine
  import opened Numerals
  import opened SecsItems
  import opened SecsText
  import opened SecsMeaning
  import opened SmlReprint

  // ---------------------------------------------------------------- one value

  lemma TwosStored(w: Width, v: seq<byte>)
    requires |v| == w.Size()
    ensures var n := TwosComplement(Bytes.Number(v), w.Size());
            -TWO_63 <= n < TWO_64 && Stored(n, w.Size()) == v && (w != W8 ==> -TWO_31 <= n < TWO_31)
  {
    hide Power, BigEndian, Bytes.Number;
    Powers();
    NumberBound(v);
    BigEndianOf(v);
    var k, n := w.Size(), Bytes.Number(v);
    if TwosComplement(n, k) < 0 {
      var q := Ones(w);
      OnesFill(w);
      assert n - Power(256, k) + TWO_64 == n + q * Power(256, k);
      BigEndianHigh(n, q, k);
    }
  }

  /** What a decoder stores for a truth value or a number, written into a message, is the same value
      again; of I8 that are the numbers a C `int` holds. */
  lemma VariableEncodes(fl: Floats, g: FloatText, f: Format, v: seq<byte>)
    requires |v| == ValueSize(f) && (f.Unsigned? || f.Signed? || (f == Boolean && v[0] <= 1))
    requires f == Signed(W8) ==> -TWO_31 <= TwosComplement(Bytes.Number(v), 8) < TWO_31
    ensures Convert(fl, f, ValueText(g, f, v)) == Converted(v, true)
  {
    hide Stored, Numbers, TwosComplement, Decimal, ReadUnsigned, ReadSigned;
    if f == Boolean {
      assert v == [v[0]];
    } else if f.Signed? {
      TwosStored(f.w, v);
      NumberConverts(f, TwosComplement(Bytes.Number(v), f.w.Size()), f.w.Size());
    } else {
      StoredBack(f, v);
      NumberConverts(f, Bytes.Number(v), ValueSize(f));
    }
  }

  /** A byte in hexadecimal, as both decoders write it, is read as the byte. */
  lemma HexRoundTrip(fl: Floats, b: byte)
    ensures ReadHex(HexText(b)) == Read(b, 2) && Convert(fl, Hex, HexText(b)) == Converted([b], true)
  {
    hide Stored;
    var s := HexText(b);
    assert forall d: nat :: d < 16 ==> IsHex(HEX[d]) && HexValue(HEX[d]) == d;
    assert Blanks(s) == 0;
    assert s[2..] == "" && Numbers(Hex, "") == Converted([], true);
    assert Stored(b, 1) == [b] by { OneStored(b); }
    assert [b] + [] == [b];
  }

  lemma OneStored(b: byte)
    ensures Stored(b, 1) == [b]
  {
    assert BigEndian(b / 256, 0) == [];
  }

  /** All ways in which a truth value is stored or shown are read as it, and nothing but a T, an F, a 1
      or a 0 begins one. */
  lemma TruthsRead(fl: Floats, s: string)
    ensures Convert(fl, Boolean, "1") == Convert(fl, Boolean, "T") == Convert(fl, Boolean, "TRUE")
            == Converted([1], true)
    ensures Convert(fl, Boolean, "0") == Convert(fl, Boolean, "F") == Convert(fl, Boolean, "FALSE")
            == Converted([0], true)
    ensures Convert(fl, Boolean, s).ok <==> s != "" && s[0] in "TF10"
  {
  }

  // ---------------------------------------------------------------- the numbers of an item in one variable

  predicate BeginsBlank(s: string) { s != "" && s[0] == ' ' }

  lemma {:induction false} DigitsThen(d: string, more: string)
    requires AllDigits(d) && BeginsBlank(more)
    ensures Digits(d + more) == |d|
    decreases |d|
  {
    if d != "" {
      assert (d + more)[0] == d[0] && (d + more)[1..] == d[1..] + more;
      DigitsThen(d[1..], more);
    } else {
      assert d + more == more;
    }
  }

  /** A number, perhaps behind a blank, is read up to the next blank. */
  lemma NumberThen(f: Format, v: int, blank: bool, more: string)
    requires (f.Unsigned? && 0 <= v < TWO_64) || (f.Signed? && -TWO_31 <= v < TWO_31)
    requires BeginsBlank(more)
    ensures var front := if blank then " " + SignedDecimal(v) else SignedDecimal(v);
            ReadOne(f, front + more) == Read(v, |front|)
  {
    hide Decimal, ReadUnsigned, ReadSigned;
    var m: nat := if v < 0 then -v else v;
    if f.Unsigned? {
      UnsignedThen(m, blank, more);
    } else {
      SignedThen(v, m, blank, more);
    }
  }

  lemma UnsignedThen(m: nat, blank: bool, more: string)
    requires m < TWO_64 && BeginsBlank(more)
    ensures var front := if blank then " " + Decimal(m) else Decimal(m);
            ReadUnsigned(front + more) == Read(m, |front|)
  {
    hide Decimal, ValueOf, Digits, Blanks;
    var b, d := if blank then 1 else 0, Decimal(m);
    var s := (if blank then " " + d else d) + more;
    BlanksBefore(s, b);
    ValueOfDecimal(m);
    assert s[b..] == d + more;
    DigitsThen(d, more);
    assert (d + more)[..|d|] == d;
  }

  /** What `my_atoi` reads where the blanks, the sign and the digits are known. */
  lemma SignedParts(s: string, b: nat, neg: bool, d: string, more: string)
    requires Blanks(s) == b < |s| && AllDigits(d) && d != "" && BeginsBlank(more) && (neg <==> s[b] == '-')
    requires s[(if neg then b + 1 else b)..] == d + more
    ensures var v := Wrap32(ValueOf(d));
            ReadSigned(s) == Read(if neg then Wrap32(-v) else v, |d| + if neg then b + 1 else b)
  {
    hide ValueOf, Digits, Blanks, Wrap32, AllDigits;
    var c := if neg then b + 1 else b;
    var t := s[c..];
    DigitsThen(d, more);
    assert t[..|d|] == d;
    assert Digits(t) == |d| > 0;
  }

  lemma SignedLayout(v: int, d: string, blank: bool, more: string)
    requires AllDigits(d) && d != ""
    ensures var b, front := if blank then 1 else 0, (if blank then " " else "") + (if v < 0 then "-" else "") + d;
            var s := front + more;
            && b < |s| && Blanks(s) == b && (v < 0 <==> s[b] == '-')
            && s[(if v < 0 then b + 1 else b)..] == d + more && |front| == |d| + if v < 0 then b + 1 else b
  {
    hide Blanks;
    var b := if blank then 1 else 0;
    var s := (if blank then " " else "") + (if v < 0 then "-" else "") + d + more;
    assert IsDigit(d[0]);
    assert s[b] == if v < 0 then '-' else d[0];
    BlanksBefore(s, b);
  }

  lemma SignedThen(v: int, m: nat, blank: bool, more: string)
    requires -TWO_31 <= v < TWO_31 && m == (if v < 0 then -v else v) && BeginsBlank(more)
    ensures var front := if blank then " " + SignedDecimal(v) else SignedDecimal(v);
            ReadSigned(front + more) == Read(v, |front|)
  {
    hide Decimal, ValueOf, Blanks, Wrap32, ReadSigned, AllDigits;
    var b, d := if blank then 1 else 0, Decimal(m);
    assert AllDigits(d) && d != "" by { DecimalDigits(m); }
    var front := (if blank then " " else "") + (if v < 0 then "-" else "") + d;
    assert front == if blank then " " + SignedDecimal(v) else SignedDecimal(v);
    ValueOfDecimal(m);
    SignedLayout(v, d, blank, more);
    SignedParts(front + more, b, v < 0, d, more);
    if v < 0 { NegateWrapped(m); }
    assert Wrap32(v) == v;
  }

  lemma DecimalDigits(m: nat)
    ensures AllDigits(Decimal(m)) && Decimal(m) != ""
  {
    hide Decimal;
  }

  lemma BlanksBefore(s: string, b: nat)
    requires b <= 1 && |s| > b && s[b] != ' ' && (b == 1 ==> s[0] == ' ')
    ensures Blanks(s) == b
  {
    if b == 1 { assert s[1..][0] == s[1]; }
  }

  /** The numbers behind the first, each with a blank in front, and a blank at the end. */
  function Tail(vs: seq<int>): (s: string)
    ensures BeginsBlank(s)
  {
    if vs == [] then " " else (" " + SignedDecimal(vs[0])) + Tail(vs[1..])
  }

  predicate Readables(f: Format, vs: seq<int>) {
    forall k :: 0 <= k < |vs| ==>
      (f.Unsigned? && 0 <= vs[k] < TWO_64) || (f.Signed? && -TWO_31 <= vs[k] < TWO_31)
  }

  lemma {:induction false} TailConverts(f: Format, vs: seq<int>)
    requires (f.Unsigned? || f.Signed?) && Readables(f, vs) && AllInRange(f, vs)
    ensures Numbers(f, Tail(vs)) == Converted(StoredNumbers(f, vs), false)
    decreases |vs|
  {
    hide ReadOne, Stored, SignedDecimal, InRange;
    NumbersStep(f, Tail(vs));
    if vs == [] {
      BlankAlone(f);
    } else {
      var front, more := " " + SignedDecimal(vs[0]), Tail(vs[1..]);
      NumberThen(f, vs[0], true, more);
      assert (front + more)[|front|..] == more;
      TailConverts(f, vs[1..]);
    }
  }

  lemma BlankAlone(f: Format)
    requires f.Unsigned? || f.Signed?
    ensures ReadOne(f, " ").count == 0
  {
    assert " "[1..] == "";
  }

  lemma {:induction false} StrungTail(vs: seq<int>)
    requires vs != []
    ensures Strung("", Held(Ints(Unsigned(W1), vs)), " ") == SignedDecimal(vs[0]) + Tail(vs[1..])
    decreases |vs|
  {
    hide SignedDecimal;
    var texts := Held(Ints(Unsigned(W1), vs));
    assert texts[1..] == Held(Ints(Unsigned(W1), vs[1..]));
    if |vs| == 1 {
      assert Strung("", texts[1..], " ") == "";
    } else {
      StrungTail(vs[1..]);
    }
  }

  /** The one variable that the second decoder stores for an item of numbers ends in a blank. Put into a
      message of the same format it gives the bytes of all its numbers, and an error for the blank. */
  lemma JoinedRejected(fl: Floats, f: Format, vs: seq<int>)
    requires (f.Unsigned? || f.Signed?) && vs != [] && Readables(f, vs) && AllInRange(f, vs)
    ensures Convert(fl, f, Strung("", Held(Ints(f, vs)), " ")) == Converted(StoredNumbers(f, vs), false)
  {
    hide ReadOne, Stored, SignedDecimal, InRange, Numbers, Strung, Held;
    StrungTail(vs);
    SameHeld(f, vs);
    assert SignedDecimal(vs[0]) != "" by { DecimalThere(vs[0]); }
    var front, more := SignedDecimal(vs[0]), Tail(vs[1..]);
    NumbersStep(f, front + more);
    NumberThen(f, vs[0], false, more);
    assert (front + more)[|front|..] == more && front + more != "";
    TailConverts(f, vs[1..]);
  }

  lemma DecimalThere(v: int)
    ensures SignedDecimal(v) != ""
  {
    hide Decimal;
  }

  lemma SameHeld(f: Format, vs: seq<int>)
    ensures Held(Ints(f, vs)) == Held(Ints(Unsigned(W1), vs))
  {
  }

  /** A text that begins with what no number begins with is no data. */
  lemma GarbageRejected(f: Format, s: string)
    requires f.Unsigned? || f.Signed? || f.Hex?
    requires s != "" && s[0] != ' ' && !IsDigit(s[0])
    requires (f.Signed? ==> s[0] != '-') && (f.Hex? ==> !('A' <= s[0] <= 'F'))
    ensures Numbers(f, s) == Converted([], false)
  {
    assert s[0..] == s;
  }
}
