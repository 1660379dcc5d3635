/** The checksum of a SECS-I block (source/secs.c:156-177; section 8 of SEMI E4). */
module Checksums {
  import opened Bytes
  import opened Machine
  import opened Numerals

  type Block = b: seq<byte> | 10 <= |b| <= 254 witness seq(10, _ => 0)

  /** The bit that marks the last block of a message. */
  predicate EndBit(b: Block) { b[4] >= 128 }

  function Sum(s: seq<byte>): nat {
    if s == [] then 0 else Sum(s[..|s| - 1]) + s[|s| - 1]
  }

  /** The two checksum bytes, the higher first. */
  function Check(s: seq<byte>): (c: seq<byte>)
    ensures |c| == 2
  {
    [Sum(s) / 256 % 256, Sum(s) % 256]
  }

  method CalcChecksum(buffer: seq<byte>) returns (checksum: seq<byte>)
    ensures checksum == Check(buffer)
  {
    var v := 0;
    for i := 0 to |buffer|
      invariant v == Sum(buffer[..i]) % TWO_32
    {
      assert buffer[..i + 1][..i] == buffer[..i];
      AddWrapped(Sum(buffer[..i]), buffer[i]);
      v := (v + buffer[i]) % TWO_32;
    }
    assert buffer[..|buffer|] == buffer;
    LowBytes(Sum(buffer));
    checksum := [v / 256 % 256, v % 256];
  }

  lemma AddWrapped(n: nat, d: nat)
    ensures (n % TWO_32 + d) % TWO_32 == (n + d) % TWO_32
  {
    var q := n / TWO_32;
    assert n + d == n % TWO_32 + d + q * TWO_32;
    ModMore(n % TWO_32 + d, q, TWO_32);
  }

  lemma LowBytes(n: nat)
    ensures n % TWO_32 / 256 % 256 == n / 256 % 256 && n % TWO_32 % 256 == n % 256
  {
    var q, r := n / TWO_32, n % TWO_32;
    assert n == r + (q * 0x100_0000) * 256;
    assert n / 256 == r / 256 + q * 0x100_0000;
    assert q * 0x100_0000 == (q * 0x1_0000) * 256;
    ModMore(r, q * 0x100_0000, 256);
    ModMore(r / 256, q * 0x1_0000, 256);
  }

  lemma {:induction false} SumBound(s: seq<byte>)
    ensures Sum(s) <= 255 * |s|
  {
    if s != [] { SumBound(s[..|s| - 1]); }
  }

  /** In a block of a legal size the checksum is the sum itself. */
  lemma CheckExact(s: seq<byte>)
    requires |s| <= 254
    ensures Sum(s) <= 64770 && Number(Check(s)) == Sum(s)
  {
    hide Sum, Number;
    SumBound(s);
    TwoBytes(Check(s));
    HighLow(Sum(s));
  }

  lemma HighLow(n: nat)
    requires n < 65536
    ensures (n / 256 % 256) * 256 + n % 256 == n
  {
  }

  lemma {:induction false} SumUpdate(s: seq<byte>, i: nat, x: byte)
    requires i < |s|
    ensures Sum(s[i := x]) == Sum(s) - s[i] + x
    decreases |s|
  {
    var t := s[..|s| - 1];
    if i == |s| - 1 {
      assert s[i := x][..|s| - 1] == t;
    } else {
      assert s[i := x][..|s| - 1] == t[i := x];
      SumUpdate(t, i, x);
    }
  }

  /** One wrong byte never goes unnoticed; it is exactly what leaves the sum as it was that does. */
  lemma OneByteDetected(s: seq<byte>, i: nat, x: byte)
    requires i < |s| && x != s[i]
    ensures Check(s[i := x]) != Check(s)
  {
    SumUpdate(s, i, x);
    var n, d := Sum(s), x - s[i];
    assert -256 < d < 256 && d != 0;
    assert n % 256 != (n + d) % 256;
  }

  /** Blocks of legal size have the same checksum exactly when their bytes have the same sum. */
  lemma SameCheck(s: seq<byte>, t: seq<byte>)
    requires |s| <= 254 && |t| <= 254
    ensures Check(s) == Check(t) <==> Sum(s) == Sum(t)
  {
    CheckExact(s);
    CheckExact(t);
  }
}
