/** Bytes, and numbers stored with their highest byte first. */
module Bytes {
  type byte = b: int | 0 <= b < 256

  function Power(b: nat, n: nat): nat {
    if n == 0 then 1 else b * Power(b, n - 1)
  }

  lemma {:induction false} PowerPositive(b: nat, n: nat)
    requires b > 0
    ensures Power(b, n) > 0
  {
    if n > 0 { PowerPositive(b, n - 1); }
  }

  /** The lowest `k` bytes of `n`, the highest first (source/secs_encode_sml.c stores the machine's
      bytes swapped). */
  function BigEndian(n: nat, k: nat): (s: seq<byte>)
    ensures |s| == k
  {
    if k == 0 then [] else BigEndian(n / 256, k - 1) + [n % 256]
  }

  function Number(s: seq<byte>): nat {
    if s == [] then 0 else 256 * Number(s[..|s| - 1]) + s[|s| - 1]
  }

  lemma {:induction false} NumberBound(s: seq<byte>)
    ensures Number(s) < Power(256, |s|)
  {
    if s != [] {
      NumberBound(s[..|s| - 1]);
    }
  }

  lemma {:induction false} NumberOf(n: nat, k: nat)
    requires n < Power(256, k)
    ensures Number(BigEndian(n, k)) == n
  {
    if k > 0 {
      NumberOf(n / 256, k - 1);
      var s := BigEndian(n, k);
      assert s[..k - 1] == BigEndian(n / 256, k - 1);
    }
  }

  lemma {:induction false} BigEndianOf(s: seq<byte>)
    ensures BigEndian(Number(s), |s|) == s
  {
    if s != [] {
      var t := s[..|s| - 1];
      BigEndianOf(t);
      assert Number(s) / 256 == Number(t) && Number(s) % 256 == s[|s| - 1];
      assert s == t + [s[|s| - 1]];
    }
  }

  /** What is above the lowest `k` bytes does not matter to them. */
  lemma {:induction false} BigEndianHigh(n: nat, q: nat, k: nat)
    ensures BigEndian(n + q * Power(256, k), k) == BigEndian(n, k)
    decreases k
  {
    if k > 0 {
      var m := Power(256, k - 1);
      assert n + q * Power(256, k) == n + 256 * (q * m) by {
        assert Power(256, k) == 256 * m;
        assert q * (256 * m) == 256 * (q * m);
      }
      assert (n + 256 * (q * m)) / 256 == n / 256 + q * m && (n + 256 * (q * m)) % 256 == n % 256;
      BigEndianHigh(n / 256, q, k - 1);
    }
  }

  lemma OneByte(s: seq<byte>)
    requires |s| == 1
    ensures Number(s) == s[0]
  {
    assert s[..0] == [];
  }

  lemma TwoBytes(s: seq<byte>)
    requires |s| == 2
    ensures Number(s) == (s[0] as int) * 256 + s[1]
  {
    OneByte(s[..1]);
  }

  lemma ThreeBytes(s: seq<byte>)
    requires |s| == 3
    ensures Number(s) == (s[0] as int) * 65536 + (s[1] as int) * 256 + s[2]
  {
    TwoBytes(s[..2]);
  }
}
