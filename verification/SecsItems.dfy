/** SECS-II items: the words that select a format, item headers and the conversion of item data
    (source/secs_encode_sml.c:171-850 and 979-1024; section 9 of SEMI E5). */
module SecsItems {
  import opened Bytes
  import opened Machine
  import opened Numerals

  datatype Width = W1 | W2 | W4 | W8 {
    function Size(): (n: nat)
      ensures n in {1, 2, 4, 8}
    {
      match this
      case W1 => 1
      case W2 => 2
      case W4 => 4
      case W8 => 8
    }
  }

  /** Hex is BINARY: its data is written in hexadecimal. */
  datatype Format = Ascii | Boolean | Hex | Unsigned(w: Width) | Signed(w: Width) | Float(w: Width)

  const LIST: byte := 0x00

  /** headers/secs.h:33-46; the two lowest bits count the length bytes. */
  function Code(f: Format): (c: byte)
    ensures c % 4 == 0 && LIST < c
  {
    match f
    case Ascii => 0x40
    case Boolean => 0x24
    case Hex => 0x20
    case Unsigned(w) => (match w case W1 => 0xA4 case W2 => 0xA8 case W4 => 0xB0 case W8 => 0xA0)
    case Signed(w) => (match w case W1 => 0x64 case W2 => 0x68 case W4 => 0x70 case W8 => 0x60)
    case Float(w) => (match w case W8 => 0x80 case _ => 0x90)
  }

  /** What a word of the message text stands for, by its first letters. */
  datatype Word = ListWord | ItemWord(f: Format) | BadWord | NoWord

  function WordOf(s: string): Word {
    if s == "" then NoWord
    else if s[0] == 'L' then ListWord
    else if s[0] == 'A' then ItemWord(Ascii)
    else if s[0] == 'B' then ItemWord(if |s| > 1 && s[1] == 'O' then Boolean else Hex)
    else if s[0] == 'U' then Sized(s, w => Unsigned(w))
    else if s[0] == 'I' then Sized(s, w => Signed(w))
    else if s[0] == 'F' then
      (if |s| > 1 && s[1] == '4' then ItemWord(Float(W4))
       else if |s| > 1 && s[1] == '8' then ItemWord(Float(W8)) else BadWord)
    else NoWord
  }

  function Sized(s: string, f: Width -> Format): Word {
    if |s| < 2 then BadWord
    else if s[1] == '1' then ItemWord(f(W1))
    else if s[1] == '2' then ItemWord(f(W2))
    else if s[1] == '4' then ItemWord(f(W4))
    else if s[1] == '8' then ItemWord(f(W8))
    else BadWord
  }

  // ---------------------------------------------------------------- headers

  /** set_size_bytes: one, two or three length bytes, the fewest that hold the length. */
  function SizeBytes(n: nat): (s: seq<byte>)
    ensures 1 <= |s| <= 3
  {
    if n <= 0xFF then BigEndian(n, 1) else if n <= 0xFFFF then BigEndian(n, 2) else BigEndian(n, 3)
  }

  function Header(code: byte, n: nat): (s: seq<byte>)
    requires code % 4 == 0
  {
    var size := SizeBytes(n);
    [code + |size|] + size
  }

  /** A length below 2^24 is what the length bytes say, and no shorter header would hold it. */
  lemma SizeBytesExact(n: nat)
    requires n < 0x1000000
    ensures Number(SizeBytes(n)) == n
    ensures forall s: seq<byte> :: 1 <= |s| && Number(s) == n ==> |SizeBytes(n)| <= |s|
  {
    assert Power(256, 1) == 256 && Power(256, 2) == 0x10000 && Power(256, 3) == 0x1000000;
    NumberOf(n, |SizeBytes(n)|);
    forall s: seq<byte> | 1 <= |s| && Number(s) == n ensures |SizeBytes(n)| <= |s| {
      NumberBound(s);
    }
  }

  // ---------------------------------------------------------------- data

  /** The bytes of one text and whether all of it could be read. */
  datatype Converted = Converted(bytes: seq<byte>, ok: bool)

  function ByteOf(c: char): byte { c as int % 256 }

  function AsciiBytes(s: string): (b: seq<byte>)
    ensures |b| == |s| && forall k :: 0 <= k < |s| ==> b[k] == ByteOf(s[k])
  {
    seq(|s|, k requires 0 <= k < |s| => ByteOf(s[k]))
  }

  /** Two's complement in `k` bytes. */
  function Stored(v: int, k: nat): (s: seq<byte>)
    requires -TWO_63 <= v < TWO_64
    ensures |s| == k
  {
    BigEndian(if v < 0 then v + TWO_64 else v, k)
  }

  lemma Powers()
    ensures Power(256, 1) == 256 && Power(256, 2) == 0x10000 && Power(256, 4) == TWO_32 && Power(256, 8) == TWO_64
  {
    assert Power(256, 3) == 0x1000000;
    assert Power(256, 5) == 0x100_0000_0000;
    assert Power(256, 7) == 0x100_0000_0000_0000;
  }

  /** What stands above a number of `w` in 64 bits, all ones. */
  function Ones(w: Width): nat {
    match w
    case W1 => 0x100_0000_0000_0000 - 1
    case W2 => 0x1_0000_0000_0000 - 1
    case W4 => 0x1_0000_0000 - 1
    case W8 => 0
  }

  lemma OnesFill(w: Width)
    ensures (Ones(w) + 1) * Power(256, w.Size()) == TWO_64
  {
    hide Power;
    Powers();
  }

  predicate IsHex(c: char) { IsDigit(c) || 'A' <= c <= 'F' }

  function HexValue(c: char): (n: nat)
    requires IsHex(c)
    ensures n < 16
  {
    if IsDigit(c) then DigitValue(c) else (c - 'A') as int + 10
  }

  /** my_atobyte: at most two hexadecimal digits. */
  function ReadHex(s: string): (r: Read)
    ensures r.count <= |s| && 0 <= r.value < 256
  {
    var b := Blanks(s);
    if b == |s| || !IsHex(s[b]) then Read(0, 0)
    else if b + 1 < |s| && IsHex(s[b + 1]) then Read(HexValue(s[b]) * 16 + HexValue(s[b + 1]), b + 2)
    else Read(HexValue(s[b]), b + 1)
  }

  function ReadOne(f: Format, s: string): (r: Read)
    requires f.Hex? || f.Unsigned? || f.Signed?
    ensures r.count <= |s| && -TWO_63 <= r.value < TWO_64
  {
    match f
    case Unsigned(_) => ReadUnsigned(s)
    case Signed(_) => ReadSigned(s)
    case _ => ReadHex(s)
  }

  /** The bytes of one value of a format. */
  function ValueSize(f: Format): (n: nat)
    ensures n > 0
  {
    match f
    case Unsigned(w) => w.Size()
    case Signed(w) => w.Size()
    case Float(w) => w.Size()
    case _ => 1
  }

  /** All numbers of a text, up to the first that is none. */
  function Numbers(f: Format, s: string): (c: Converted)
    requires f.Hex? || f.Unsigned? || f.Signed?
    decreases |s|
  {
    if s == "" then Converted([], true)
    else
      var r := ReadOne(f, s);
      if r.count == 0 then Converted([], false)
      else
        var more := Numbers(f, s[r.count..]);
        Converted(Stored(r.value, ValueSize(f)) + more.bytes, more.ok)
  }

  /** The conversion of a floating point text is a parameter: `sscanf` and `atof` are foreign. */
  type Floats = (Width, string) -> seq<byte>

  function Convert(floats: Floats, f: Format, s: string): (c: Converted) {
    match f
    case Ascii => Converted(AsciiBytes(s), true)
    case Boolean =>
      if s != "" && (s[0] == 'T' || s[0] == '1') then Converted([1], true)
      else if s != "" && (s[0] == 'F' || s[0] == '0') then Converted([0], true)
      else Converted([], false)
    case Float(w) => Converted(floats(w, s), true)
    case _ => Numbers(f, s)
  }

  lemma NumbersStep(f: Format, s: string)
    requires f.Hex? || f.Unsigned? || f.Signed?
    ensures var r := ReadOne(f, s);
            Numbers(f, s) == if s == "" then Converted([], true)
                             else if r.count == 0 then Converted([], false)
                             else Converted(Stored(r.value, ValueSize(f)) + Numbers(f, s[r.count..]).bytes,
                                            Numbers(f, s[r.count..]).ok)
  {
    hide ReadOne, Stored;
  }

  method ConvertNumbers(f: Format, s: string) returns (c: Converted)
    requires f.Hex? || f.Unsigned? || f.Signed?
    ensures c == Numbers(f, s)
  {
    hide ReadUnsigned, ReadSigned, ReadHex, Stored, Numbers;
    NumbersStep(f, "");
    var left := s;
    var data: seq<byte> := [];
    while left != ""
      invariant Numbers(f, s).bytes == data + Numbers(f, left).bytes && Numbers(f, s).ok == Numbers(f, left).ok
      decreases |left|
    {
      var r;
      match f {
        case Unsigned(_) => r := Atou(left);
        case Signed(_) => r := Atoi(left);
        case _ => r := ReadHex(left);
      }
      NumbersStep(f, left);
      if r.count == 0 {
        assert data + [] == data;
        return Converted(data, false);
      }
      ghost var more := Numbers(f, left[r.count..]).bytes;
      assert data + (Stored(r.value, ValueSize(f)) + more) == (data + Stored(r.value, ValueSize(f))) + more;
      data := data + Stored(r.value, ValueSize(f));
      left := left[r.count..];
    }
    assert data + [] == data;
    return Converted(data, true);
  }
}
