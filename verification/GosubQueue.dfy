/** The argument queue of GOSUB as the bytes it is (source/gosub.c:85-137 and 154-199): the type of an
    argument goes in with as many bytes as a type has, and comes off as one. */
module GosubQueue {
  import opened Tokens
  import opened Bytes
  import opened Gosubs
  import P = ProgramText

  /** An argument that fits: its type has a number, its text a length of four bytes and characters of
      one. */
  predicate Passable(c: P.Codes, a: Token) {
    && c.kind(c.of(a.kind)) == a.kind && |a.text| < 0x1_0000_0000
    && forall k :: 0 <= k < |a.text| ==> a.text[k] as int < 256
  }

  predicate AllPassable(c: P.Codes, args: seq<Token>) { forall k :: 0 <= k < |args| ==> Passable(c, args[k]) }

  /** Arguments queued one behind the other, `behind` lying in memory behind their types. */
  function PackedAll(c: P.Codes, args: seq<Token>, behind: seq<byte>): seq<byte> {
    if args == [] then [] else Packed(c, args[0], behind) + PackedAll(c, args[1..], behind)
  }

  // ---------------------------------------------------------------- a type of one byte

  lemma TakesPacked(c: P.Codes, a: Token, rest: seq<byte>)
    requires Passable(c, a)
    ensures Take(c, Packed(c, a, []) + rest) == Some((a, rest))
  {
    hide P.LittleEndian, P.LengthOf, P.ByteText, P.CharText;
    var s, n := Packed(c, a, []) + rest, |a.text|;
    assert s == [c.of(a.kind)] + P.LittleEndian(n) + P.ByteText(a.text) + rest;
    P.LengthBack(n);
    P.TextBack(a.text);
    assert s[1..5] == P.LittleEndian(n) && s[5..5 + n] == P.ByteText(a.text) && s[5 + n..] == rest;
  }

  /** Where a type takes one byte, what comes off the queue is what was put on it. */
  lemma {:induction false} DrainsBack(c: P.Codes, args: seq<Token>)
    requires AllPassable(c, args)
    ensures Drained(c, PackedAll(c, args, []), |args|) == args
  {
    hide Take, Packed, Passable;
    if args != [] {
      DrainsBack(c, args[1..]);
      TakesPacked(c, args[0], PackedAll(c, args[1..], []));
      assert args == [args[0]] + args[1..];
    }
  }

  // ---------------------------------------------------------------- a wider type

  lemma FourBytes(s: seq<byte>)
    requires |s| == 4
    ensures P.LengthOf(s) == (s[3] as int) * 0x100_0000 + (s[2] as int) * 0x1_0000 + (s[1] as int) * 0x100 + s[0]
  {
    ThreeBytes([s[3], s[2], s[1], s[0]][..3]);
  }

  /** The lowest byte of a length stands first. */
  lemma LowByte(n: nat)
    ensures P.LittleEndian(n)[0] == n % 256
    ensures n < 256 ==> P.LittleEndian(n)[1..] == [0, 0, 0]
  {
    assert n < 256 ==> BigEndian(n / 256, 3) == [0, 0, 0];
  }

  /** Of a type of two to four bytes the rest is taken for the beginning of the length. */
  lemma LengthShifted(c: P.Codes, a: Token, behind: seq<byte>, rest: seq<byte>)
    requires 1 <= |behind| <= 3
    ensures var s := Packed(c, a, behind) + rest;
            |s| >= 5 && P.LengthOf(s[1..5]) >= (|a.text| % 256) * Power(256, |behind|)
  {
    hide P.LittleEndian, P.LengthOf, P.ByteText;
    var s, w := Packed(c, a, behind) + rest, |behind|;
    LowByte(|a.text|);
    FourBytes(s[1..5]);
    assert s[1 + w] == P.LittleEndian(|a.text|)[0];
    assert Power(256, 1) == 256;
    assert Power(256, 2) == 0x1_0000;
    assert Power(256, 3) == 0x100_0000;
  }

  /** So a text of 1 to 255 bytes does not come back. */
  lemma ShortTextLost(c: P.Codes, a: Token, behind: seq<byte>, rest: seq<byte>)
    requires 1 <= |behind| <= 3 && 0 < |a.text| < 256
    ensures var x := Take(c, Packed(c, a, behind) + rest); x.Some? ==> |x.value.0.text| >= 256
  {
    hide Packed, P.LengthOf;
    LengthShifted(c, a, behind, rest);
    assert Power(256, 1) == 256;
    assert Power(256, 2) == 0x1_0000;
    assert Power(256, 3) == 0x100_0000;
  }

  /** A text of one character that a queue with these bytes behind the type does not give back. */
  function Witness(behind: seq<byte>): Token {
    Token(Value(Identifier), if |behind| > 4 && behind[4] == 'a' as int then "b" else "a")
  }

  lemma WitnessLost(c: P.Codes, behind: seq<byte>, rest: seq<byte>)
    requires behind != []
    ensures var x := Take(c, Packed(c, Witness(behind), behind) + rest);
            x.None? || x.value.0.text != Witness(behind).text
  {
    hide P.LittleEndian, P.LengthOf, P.ByteText;
    var a := Witness(behind);
    if |behind| <= 3 {
      ShortTextLost(c, a, behind, rest);
    } else {
      var s := Packed(c, a, behind) + rest;
      LowByte(1);
      assert s[1..] == behind + (P.LittleEndian(1) + P.ByteText(a.text)) + rest;
      assert s[5] == if |behind| > 4 then behind[4] else P.LittleEndian(1)[0];
      var x := Take(c, s);
      assert x.Some? && |x.value.0.text| == 1 ==> x.value.0.text[0] as int == s[5..6][0];
    }
  }

  /** Whatever is queued comes off again. */
  ghost predicate ComesBack(c: P.Codes, behind: seq<byte>) {
    forall args :: AllPassable(c, args) ==> Drained(c, PackedAll(c, args, behind), |args|) == args
  }

  /** All arguments come off the queue as they were put on it exactly where a type takes one byte. */
  lemma BackExactly(c: P.Codes, behind: seq<byte>)
    requires c.kind(c.of(Value(Identifier))) == Value(Identifier)
    ensures ComesBack(c, behind) <==> behind == []
  {
    hide Take, Packed;
    if behind == [] {
      forall args | AllPassable(c, args) ensures Drained(c, PackedAll(c, args, behind), |args|) == args {
        DrainsBack(c, args);
      }
    } else {
      var a := Witness(behind);
      WitnessLost(c, behind, []);
      assert PackedAll(c, [a], behind) == Packed(c, a, behind) + [];
      assert AllPassable(c, [a]);
      assert Drained(c, PackedAll(c, [a], behind), 1) != [a];
    }
  }

  /** The input: a type of four bytes, zeros behind the first, and one argument, the text "a". It is
      taken for one of 16777216 bytes, and nothing comes off. */
  lemma FourByteType(c: P.Codes)
    ensures Drained(c, PackedAll(c, [Token(Value(Str), "a")], [0, 0, 0]), 1) == []
  {
    hide Packed, P.LengthOf;
    var a := Token(Value(Str), "a");
    LengthShifted(c, a, [0, 0, 0], []);
    assert Power(256, 3) == 0x100_0000;
    assert PackedAll(c, [a], [0, 0, 0]) == Packed(c, a, [0, 0, 0]) + [];
    assert |Packed(c, a, [0, 0, 0])| == 9 by { PackedLength(c, a, [0, 0, 0]); }
  }

  lemma PackedLength(c: P.Codes, a: Token, behind: seq<byte>)
    ensures |Packed(c, a, behind)| == 5 + |behind| + |a.text|
  {
  }
}
