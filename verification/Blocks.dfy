/** Messages in blocks: the split loop of `send_secsII` (source/send_secs.c:153-291) and the loop of
    `recv_secs` that puts them together (source/recv_secs.c:104-190; sections 8 and 9 of SEMI E4). */
module Blocks {
  import opened Bytes
  import opened Checksums

  const BODY := 244

  /** The fields of a block header that a message's blocks have in common. */
  datatype Head = Head(device: nat, rbit: bool, stream: nat, function_: nat, wait: bool, system: nat)

  /** A byte with its highest bit set, if `bit`. */
  function Marked(n: nat, bit: bool): byte {
    if bit then n % 128 + 128 else n % 256
  }

  function HeaderBytes(h: Head, number: nat, last: bool): (s: seq<byte>)
    ensures |s| == 10
  {
    [Marked(h.device / 256, h.rbit), h.device % 256, Marked(h.stream, h.wait), h.function_ % 256,
     Marked(number / 256, last), number % 256] + BigEndian(h.system, 4)
  }

  function MakeBlock(h: Head, number: nat, last: bool, body: seq<byte>): Block
    requires |body| <= BODY
  {
    HeaderBytes(h, number, last) + body
  }

  /** The blocks of a message from block `number` on; an empty message is one empty block. */
  function Split(h: Head, msg: seq<byte>, number: nat): (bs: seq<Block>)
    ensures bs != []
    decreases |msg|
  {
    if |msg| <= BODY then [MakeBlock(h, number, true, msg)]
    else [MakeBlock(h, number, false, msg[..BODY])] + Split(h, msg[BODY..], number + 1)
  }

  /** The loop of `send_secsII`, with the message and its size as they are on entry. */
  method SplitMessage(h: Head, msg: seq<byte>, size: nat) returns (blocks: seq<Block>)
    requires size <= |msg|
    ensures blocks == Split(h, msg[..size], 1)
  {
    blocks := [];
    var msgSize: nat, msgPtr: nat, blockNum: nat := size, 0, 1;
    assert msg[..size][0..] == msg[..size];
    while true
      invariant msgPtr + msgSize == size
      invariant blocks + Split(h, msg[msgPtr..size], blockNum) == Split(h, msg[..size], 1)
      decreases msgSize
    {
      var dataSize := if msgSize < BODY then msgSize else BODY;
      ghost var rest := msg[msgPtr..size];
      msgSize := msgSize - dataSize;
      var data := msg[msgPtr..msgPtr + dataSize];
      assert rest[..dataSize] == data && rest[dataSize..] == msg[msgPtr + dataSize..size];
      msgPtr := msgPtr + dataSize;
      blocks := blocks + [MakeBlock(h, blockNum, msgSize == 0, data)];
      if msgSize == 0 {
        return;
      }
      blockNum := blockNum + 1;
    }
  }

  // ---------------------------------------------------------------- the blocks

  function Pieces(msg: seq<byte>): nat { if |msg| <= BODY then 1 else (|msg| + BODY - 1) / BODY }

  /** The body of the `k`-th block. */
  function Piece(msg: seq<byte>, k: nat): (s: seq<byte>)
    requires k < Pieces(msg)
    ensures |s| <= BODY
  {
    msg[k * BODY..if (k + 1) * BODY <= |msg| then (k + 1) * BODY else |msg|]
  }

  lemma PiecesStep(msg: seq<byte>)
    requires |msg| > BODY
    ensures Pieces(msg) == 1 + Pieces(msg[BODY..])
  {
  }

  lemma OnePiece(msg: seq<byte>)
    ensures |msg| <= BODY ==> Pieces(msg) == 1 && Piece(msg, 0) == msg
    ensures |msg| > BODY ==> Pieces(msg) > 1 && Piece(msg, 0) == msg[..BODY]
  {
  }

  lemma PieceBehind(msg: seq<byte>, k: nat)
    requires |msg| > BODY && 0 < k < Pieces(msg)
    ensures k - 1 < Pieces(msg[BODY..]) && Piece(msg[BODY..], k - 1) == Piece(msg, k)
    ensures k < Pieces(msg) - 1 ==> |Piece(msg, k)| == BODY
  {
    PiecesStep(msg);
    SliceBehind(msg, BODY, (k - 1) * BODY, if (k + 1) * BODY <= |msg| then k * BODY else |msg| - BODY);
  }

  lemma SliceBehind(msg: seq<byte>, n: nat, lo: nat, hi: nat)
    requires lo <= hi && hi + n <= |msg|
    ensures msg[n..][lo..hi] == msg[n + lo..n + hi]
  {
  }

  /** Every block: number, end bit and body; every body but the last is full. */
  lemma {:induction false} SplitAt(h: Head, msg: seq<byte>, number: nat, k: nat)
    requires k < Pieces(msg)
    ensures |Split(h, msg, number)| == Pieces(msg)
    ensures Split(h, msg, number)[k] == MakeBlock(h, number + k, k == Pieces(msg) - 1, Piece(msg, k))
    ensures k < Pieces(msg) - 1 ==> |Piece(msg, k)| == BODY
    decreases |msg|
  {
    hide MakeBlock, Piece, Pieces;
    OnePiece(msg);
    if |msg| > BODY {
      PiecesStep(msg);
      if k > 0 {
        SplitAt(h, msg[BODY..], number + 1, k - 1);
        PieceBehind(msg, k);
      } else {
        SplitAt(h, msg[BODY..], number + 1, 0);
      }
    }
  }

  function BlockNumber(b: Block): nat { (b[4] as int) % 128 * 256 + b[5] }

  lemma NumberRead(h: Head, number: nat, last: bool, body: seq<byte>)
    requires |body| <= BODY && number < 0x8000
    ensures BlockNumber(MakeBlock(h, number, last, body)) == number && EndBit(MakeBlock(h, number, last, body)) == last
    ensures MakeBlock(h, number, last, body)[10..] == body
  {
  }

  /** Of a message of at most 7,995,148 bytes the blocks are numbered from 1 on and the end bit is on
      the last one alone; the numbers of longer messages do not fit. */
  lemma SplitNumbers(h: Head, msg: seq<byte>, k: nat)
    requires |msg| <= 7_995_148 && k < Pieces(msg)
    ensures var bs := Split(h, msg, 1);
            && |bs| == Pieces(msg) <= 0x7FFF
            && BlockNumber(bs[k]) == k + 1 && (EndBit(bs[k]) <==> k == |bs| - 1)
            && bs[k][10..] == Piece(msg, k)
  {
    hide MakeBlock, BlockNumber, EndBit, Piece;
    SplitAt(h, msg, 1, k);
    NumberRead(h, 1 + k, k == Pieces(msg) - 1, Piece(msg, k));
  }

  /** The fields read back from a header (source/recv_secs.c:203-258). */
  lemma HeadRead(h: Head, number: nat, last: bool, body: seq<byte>)
    requires |body| <= BODY && h.device < 0x8000 && h.stream < 128 && h.function_ < 256 && h.system < 0x1_0000_0000
    ensures var b := MakeBlock(h, number, last, body);
            && (b[0] as int) % 128 * 256 + b[1] == h.device && (b[0] >= 128 <==> h.rbit)
            && b[2] % 128 == h.stream && (b[2] >= 128 <==> h.wait) && b[3] == h.function_
            && Number(b[6..10]) == h.system
  {
    hide BigEndian, Number, Marked;
    var b, s := MakeBlock(h, number, last, body), HeaderBytes(h, number, last);
    assert s[6..10] == BigEndian(h.system, 4);
    assert b[6..10] == s[6..10];
    MarkRead(h.device / 256, h.rbit);
    MarkRead(h.stream, h.wait);
    FourBytes(h.system);
  }

  lemma MarkRead(n: nat, mark: bool)
    requires n < 128
    ensures (Marked(n, mark) as int) % 128 == n && (Marked(n, mark) >= 128 <==> mark)
  {
  }

  lemma FourBytes(n: nat)
    requires n < 0x1_0000_0000
    ensures Number(BigEndian(n, 4)) == n
  {
    assert Power(256, 3) == 0x100_0000;
    assert Power(256, 4) == 0x1_0000_0000;
    NumberOf(n, 4);
  }

  // ---------------------------------------------------------------- reassembly

  /** What `recv_secs` has on hand while blocks come in. */
  datatype Gathering = Gathering(first: bool, lastHeader: seq<byte>, msg: seq<byte>)

  function NextBlock(g: Gathering, b: Block): Gathering {
    if g.first then Gathering(false, g.lastHeader, g.msg + b[10..])
    else if g.lastHeader == b[..10] then g
    else Gathering(false, b[..10], g.msg + b[10..])
  }

  /** A message and the blocks behind it, or none if the blocks run out before an end bit. */
  datatype Received = Whole(msg: seq<byte>, rest: seq<Block>) | Partial(g: Gathering)

  function Gather(g: Gathering, bs: seq<Block>): Received
    decreases |bs|
  {
    if bs == [] then Partial(g)
    else
      var g1 := NextBlock(g, bs[0]);
      if EndBit(bs[0]) then Whole(g1.msg, bs[1..]) else Gather(g1, bs[1..])
  }

  function Nothing(): Gathering { Gathering(true, [0, 0, 0, 0, 0, 0, 0, 0, 0, 0], []) }

  method Receive(bs: seq<Block>) returns (whole: bool, msg: seq<byte>, n: nat)
    ensures n <= |bs| && if whole then Gather(Nothing(), bs) == Whole(msg, bs[n..]) else Gather(Nothing(), bs).Partial?
  {
    var first, lastHeader := true, [0, 0, 0, 0, 0, 0, 0, 0, 0, 0];
    msg, n := [], 0;
    assert bs[0..] == bs;
    while n < |bs|
      invariant n <= |bs|
      invariant Gather(Nothing(), bs) == Gather(Gathering(first, lastHeader, msg), bs[n..])
    {
      var block := bs[n];
      n := n + 1;
      assert bs[n - 1..][1..] == bs[n..];
      var duplicate := false;
      if first {
        first := false;
      } else if lastHeader == block[..10] {
        duplicate := true;
      } else {
        lastHeader := block[..10];
      }
      if !duplicate {
        msg := msg + block[10..];
      }
      if EndBit(block) {
        return true, msg, n;
      }
    }
    whole := false;
  }

  /** `got` is `sent` with the `k`-th block `times[k]` times in a row. */
  function Repeated(sent: seq<Block>, times: seq<nat>): seq<Block>
    requires |sent| == |times|
    decreases |sent|
  {
    if sent == [] then [] else seq(times[0], _ => sent[0]) + Repeated(sent[1..], times[1..])
  }

  lemma {:induction false} Duplicates(g: Gathering, b: Block, n: nat, more: seq<Block>)
    requires !g.first && g.lastHeader == b[..10] && !EndBit(b)
    ensures Gather(g, seq(n, _ => b) + more) == Gather(g, more)
    decreases n
  {
    var bs := seq(n, _ => b) + more;
    if n > 0 {
      assert bs[0] == b && bs[1..] == seq(n - 1, _ => b) + more;
      Duplicates(g, b, n - 1, more);
    } else {
      assert bs == more;
    }
  }

  /** A block that differs in its header from the one before is taken once, however often it comes. */
  lemma TakenOnce(g: Gathering, b: Block, n: nat, more: seq<Block>)
    requires !g.first && g.lastHeader != b[..10] && !EndBit(b) && n > 0
    ensures Gather(g, seq(n, _ => b) + more) == Gather(Gathering(false, b[..10], g.msg + b[10..]), more)
  {
    var bs := seq(n, _ => b) + more;
    assert bs[0] == b && bs[1..] == seq(n - 1, _ => b) + more;
    Duplicates(Gathering(false, b[..10], g.msg + b[10..]), b, n - 1, more);
  }

  lemma HeadersDiffer(h: Head, number: nat, last: bool, body: seq<byte>, last1: bool)
    requires |body| <= BODY && 0 < number < 0x8000
    ensures var b := MakeBlock(h, number, last, body);
            && b[..10] == HeaderBytes(h, number, last)
            && b[..10] != HeaderBytes(h, number - 1, last1)
            && b[..10] != [0, 0, 0, 0, 0, 0, 0, 0, 0, 0]
  {
    var b := MakeBlock(h, number, last, body);
    assert b[..10] == HeaderBytes(h, number, last);
    assert b[5] == b[..10][5] && b[4] == b[..10][4];
    assert number % 256 == (number - 1) % 256 ==> false;
  }

  /** The blocks of a message from number 2 on, behind a header that is not theirs. */
  lemma {:induction false} RestGathered(h: Head, msg: seq<byte>, number: nat, times: seq<nat>, g: Gathering)
    requires !g.first && 1 < number && number + Pieces(msg) <= 0x8000 && |times| == Pieces(msg)
    requires |Split(h, msg, number)| == Pieces(msg) && forall k :: 0 <= k < |times| ==> times[k] > 0
    requires g.lastHeader == HeaderBytes(h, number - 1, false) || g.lastHeader == [0, 0, 0, 0, 0, 0, 0, 0, 0, 0]
    ensures var r := Gather(g, Repeated(Split(h, msg, number), times)); r.Whole? && r.msg == g.msg + msg
    decreases |msg|
  {
    hide MakeBlock, HeaderBytes, EndBit;
    var bs := Split(h, msg, number);
    var last := |msg| <= BODY;
    var body := if last then msg else msg[..BODY];
    var b := MakeBlock(h, number, last, body);
    NumberRead(h, number, last, body);
    HeadersDiffer(h, number, last, body, false);
    var more := Repeated(bs[1..], times[1..]);
    var all := seq(times[0], _ => b) + more;
    assert Repeated(bs, times) == all;
    if last {
      assert all[0] == b;
    } else {
      PiecesStep(msg);
      TakenOnce(g, b, times[0], more);
      assert bs[1..] == Split(h, msg[BODY..], number + 1);
      RestGathered(h, msg[BODY..], number + 1, times[1..], Gathering(false, b[..10], g.msg + body));
      assert (g.msg + body) + msg[BODY..] == g.msg + msg;
    }
  }

  /** A message of up to 7,995,148 bytes whose blocks are each received once or more in a row comes
      out whole exactly when its first block came once, or is its only block. (The header of the
      first block is not kept, so its second copy is taken for a new block.) */
  lemma ReassemblesExactly(h: Head, msg: seq<byte>, times: seq<nat>)
    requires |msg| <= 7_995_148 && |times| == Pieces(msg) && forall k :: 0 <= k < |times| ==> times[k] > 0
    ensures |Split(h, msg, 1)| == Pieces(msg)
    ensures var r := Gather(Nothing(), Repeated(Split(h, msg, 1), times));
            r.Whole? && (r.msg == msg <==> times[0] == 1 || Pieces(msg) == 1)
  {
    hide MakeBlock, HeaderBytes, EndBit;
    SplitNumbers(h, msg, 0);
    var bs := Split(h, msg, 1);
    var last := |msg| <= BODY;
    var body := if last then msg else msg[..BODY];
    var b := MakeBlock(h, 1, last, body);
    NumberRead(h, 1, last, body);
    HeadersDiffer(h, 1, last, body, false);
    var more := Repeated(bs[1..], times[1..]);
    var all := seq(times[0], _ => b) + more;
    assert Repeated(bs, times) == all && all[0] == b && [] + body == body;
    var g := Gathering(false, Nothing().lastHeader, body);
    if !last {
      PiecesStep(msg);
      assert bs[1..] == Split(h, msg[BODY..], 2);
      assert all[1..] == seq(times[0] - 1, _ => b) + more;
      if times[0] == 1 {
        assert all[1..] == more;
        RestGathered(h, msg[BODY..], 2, times[1..], g);
        assert body + msg[BODY..] == msg;
      } else {
        TakenOnce(g, b, times[0] - 1, more);
        RestGathered(h, msg[BODY..], 2, times[1..], Gathering(false, b[..10], body + body));
        assert |(body + body) + msg[BODY..]| > |msg|;
      }
    }
  }

  /** What arrives is the message up to the size the split loop was given, so the message itself
      exactly when that is its size. */
  lemma SizeDecides(h: Head, msg: seq<byte>, size: nat)
    requires size <= |msg| && size <= 7_995_148
    ensures var r := Gather(Nothing(), Split(h, msg[..size], 1));
            r.Whole? && r.msg == msg[..size] && (r.msg == msg <==> size == |msg|)
  {
    var part := msg[..size];
    SplitNumbers(h, part, 0);
    var bs, times := Split(h, part, 1), seq(Pieces(part), _ => 1);
    ReassemblesExactly(h, part, times);
    OnceEach(bs, times);
  }

  /** With the size at zero, as source/send_secs.c:151 leaves it, a message arrives if and only if it
      is empty. */
  lemma ZeroSizeArrives(h: Head, msg: seq<byte>)
    ensures var r := Gather(Nothing(), Split(h, msg[..0], 1));
            r.Whole? && (r.msg == msg <==> msg == [])
  {
    SizeDecides(h, msg, 0);
  }

  lemma {:induction false} OnceEach(sent: seq<Block>, times: seq<nat>)
    requires |sent| == |times| && forall k :: 0 <= k < |times| ==> times[k] == 1
    ensures Repeated(sent, times) == sent
    decreases |sent|
  {
    if sent != [] {
      OnceEach(sent[1..], times[1..]);
      assert seq(times[0], _ => sent[0]) == [sent[0]];
    }
  }
}
