/** With `rbit` set on one side only, every interleaving of the two peers delivers every block once
    and in order, and comes to an end. */
module LinkSafety {
  import opened Tokens
  import opened Bytes
  import opened Checksums
  import opened LinkProtocol

  // ---------------------------------------------------------------- where a transfer stands

  /** What a receiver has read of a frame. */
  function Collected(y: Peer): seq<byte> {
    match y.phase
    case Reading(n, data) => if n < 256 then [n as byte] + data else data
    case _ => []
  }

  predicate Collecting(y: Peer) { y.phase.AwaitSize? || y.phase.Reading? }

  /** `s`, perhaps behind the ENQ with which the yielding side had begun. */
  predicate Stale(x: Peer, y: Peer, yx: seq<byte>, s: seq<byte>) {
    yx == s || (x.rbit && y.yielded && yx == [ENQ] + s)
  }

  /** A peer that will take the ENQ of the other: in the middle of its message, waiting for it. */
  predicate Open(y: Peer, mid: bool) {
    if mid then y.phase.AwaitEnq? else y.phase.Idle? || (y.phase.MustEnq? && !y.rbit)
  }

  /** `x` is sending its first block in `todo`, and `y` does not send. */
  predicate Transfer(x: Peer, y: Peer, xy: seq<byte>, yx: seq<byte>) {
    && !y.mid
    && match x.phase
       case AwaitEot =>
         || (xy == [ENQ] && yx == [] && Open(y, x.mid))
         || (xy == [] && y.phase.MustEot? && Stale(x, y, yx, []))
         || (xy == [] && y.phase.AwaitSize? && Stale(x, y, yx, [EOT]))
       case Writing(left) =>
         yx == [] && Collecting(y) && x.todo != [] && Collected(y) + (xy + left) == Frame(x.todo[0])
       case AwaitAck =>
         x.todo != [] && Acking(x.todo[0], y, xy, yx)
       case _ => false
  }

  predicate Acking(b: Block, y: Peer, xy: seq<byte>, yx: seq<byte>) {
    || (yx == [] && Collecting(y) && xy != [] && Collected(y) + xy == Frame(b))
    || (yx == [] && xy == [] && y.phase == Answering(|b|, b + Check(b)))
    || (yx == [ACK] && xy == []
        && if EndBit(b) then y.phase.Idle? || (y.phase.MustEnq? && !y.rbit) else y.phase.AwaitEnq?)
    || (yx == [ACK, ENQ] && xy == [] && EndBit(b) && y.phase.AwaitEot?)
  }

  /** Both have begun a message: the side with `rbit` has not been heard yet. */
  predicate Contending(x: Peer, y: Peer, xy: seq<byte>, yx: seq<byte>) {
    && x.rbit && x.phase.AwaitEot? && y.phase.AwaitEot? && !x.mid && !y.mid
    && xy == [ENQ] && (yx == [ENQ] || yx == [])
  }

  predicate Quiet(x: Peer, y: Peer, xy: seq<byte>, yx: seq<byte>) {
    && xy == [] && yx == [] && !y.mid
    && (|| (x.phase.Idle? && y.phase.Idle?)
        || (x.phase.MustEnq? && x.mid && y.phase.AwaitEnq?)
        || (x.rbit && x.phase.Idle? && y.phase.MustEnq?))
  }

  predicate Joint(x: Peer, y: Peer, xy: seq<byte>, yx: seq<byte>) {
    || Quiet(x, y, xy, yx) || Quiet(y, x, yx, xy)
    || Transfer(x, y, xy, yx) || Transfer(y, x, yx, xy)
    || Contending(x, y, xy, yx) || Contending(y, x, yx, xy)
  }

  /** The blocks of `x`: those `y` has, and those to send; the block whose ACK is under way is both. */
  predicate Carried(x: Peer, y: Peer, yx: seq<byte>, all: seq<Block>) {
    if x.phase.AwaitAck? && yx != [] then x.todo != [] && y.got + x.todo[1..] == all else y.got + x.todo == all
  }

  predicate Good(x: Peer, y: Peer, xy: seq<byte>, yx: seq<byte>, allX: seq<Block>, allY: seq<Block>) {
    && x.rbit != y.rbit && PeerOk(x) && PeerOk(y) && Joint(x, y, xy, yx)
    && Carried(x, y, yx, allX) && Carried(y, x, xy, allY)
  }

  // ---------------------------------------------------------------- one move

  lemma QuietMoves(x: Peer, y: Peer, xy: seq<byte>, yx: seq<byte>, start: bool, allX: seq<Block>, allY: seq<Block>,
                   r: Moved)
    requires Good(x, y, xy, yx, allX, allY) && (Quiet(x, y, xy, yx) || Quiet(y, x, yx, xy))
             && PeerMove(x, yx, start) == Some(r)
    ensures Good(r.p, y, xy + r.out, r.rest, allX, allY)
  {
  }

  lemma ContendingMoves(x: Peer, y: Peer, xy: seq<byte>, yx: seq<byte>, start: bool, allX: seq<Block>,
                        allY: seq<Block>, r: Moved)
    requires Good(x, y, xy, yx, allX, allY) && (Contending(x, y, xy, yx) || Contending(y, x, yx, xy))
    requires PeerMove(x, yx, start) == Some(r)
    ensures Good(r.p, y, xy + r.out, r.rest, allX, allY)
  {
  }

  /** The sender hears EOT, or the ENQ the other side had sent before it yielded. */
  lemma EotRead(x: Peer, y: Peer, xy: seq<byte>, yx: seq<byte>, start: bool, allX: seq<Block>, allY: seq<Block>,
                r: Moved)
    requires Good(x, y, xy, yx, allX, allY) && Transfer(x, y, xy, yx) && PeerMove(x, yx, start) == Some(r)
             && x.phase.AwaitEot?
    ensures Good(r.p, y, xy + r.out, r.rest, allX, allY)
  {
    hide Frame, Check;
    assert xy + [] == xy;
    FrameNotEmpty(x.todo[0]);
    assert [] + ([] + Frame(x.todo[0])) == Frame(x.todo[0]);
  }

  lemma FrameWritten(x: Peer, y: Peer, xy: seq<byte>, yx: seq<byte>, start: bool, allX: seq<Block>, allY: seq<Block>,
                     r: Moved)
    requires Good(x, y, xy, yx, allX, allY) && Transfer(x, y, xy, yx) && PeerMove(x, yx, start) == Some(r)
             && x.phase.Writing?
    ensures Good(r.p, y, xy + r.out, r.rest, allX, allY)
  {
    hide Frame, Check, Collected;
    var left := x.phase.left;
    assert xy + left == (xy + [left[0]]) + left[1..];
    assert |left| == 1 ==> (xy + [left[0]]) + left[1..] == xy + [left[0]];
  }

  lemma AckRead(x: Peer, y: Peer, xy: seq<byte>, yx: seq<byte>, start: bool, allX: seq<Block>, allY: seq<Block>,
                r: Moved)
    requires Good(x, y, xy, yx, allX, allY) && Transfer(x, y, xy, yx) && PeerMove(x, yx, start) == Some(r)
             && x.phase.AwaitAck?
    ensures Good(r.p, y, xy + r.out, r.rest, allX, allY)
  {
    hide Frame, Check, Collected;
    assert xy + [] == xy;
  }

  /** The sender's move in a transfer. */
  lemma SenderMoves(x: Peer, y: Peer, xy: seq<byte>, yx: seq<byte>, start: bool, allX: seq<Block>, allY: seq<Block>,
                    r: Moved)
    requires Good(x, y, xy, yx, allX, allY) && Transfer(x, y, xy, yx) && PeerMove(x, yx, start) == Some(r)
    ensures Good(r.p, y, xy + r.out, r.rest, allX, allY)
  {
    hide Good, PeerMove, Acking, Stale, Open, Frame, Collected;
    match x.phase {
      case AwaitEot => EotRead(x, y, xy, yx, start, allX, allY, r);
      case Writing(left) => FrameWritten(x, y, xy, yx, start, allX, allY, r);
      case AwaitAck => AckRead(x, y, xy, yx, start, allX, allY, r);
    }
  }

  lemma FrameNotEmpty(b: Block)
    ensures Frame(b) != []
  {
  }

  /** What the sender has still to write of the frame. */
  function Unwritten(x: Peer): seq<byte> {
    if x.phase.Writing? then x.phase.left else []
  }

  /** A receiver in a frame: the frame is what it has, what is on the line, and what is not written. */
  lemma InFrame(x: Peer, y: Peer, xy: seq<byte>, yx: seq<byte>)
    requires Transfer(x, y, xy, yx) && Collecting(y) && xy != []
    ensures (x.phase.Writing? || x.phase.AwaitAck?) && x.todo != [] && yx == []
    ensures Collected(y) + (xy + Unwritten(x)) == Frame(x.todo[0])
  {
    hide Frame;
    assert xy + [] == xy;
  }

  lemma FrameParts(b: Block, head: seq<byte>, tail: seq<byte>)
    requires head + tail == Frame(b)
    ensures head == [] && tail != [] ==> tail[0] == |b|
    ensures head != [] ==> head[0] == |b| && head[1..] + tail == b + Check(b)
    ensures |head| + |tail| == |b| + 3
  {
    hide Check;
    var f := Frame(b);
    if head != [] {
      assert f[0] == head[0] && f[1..] == head[1..] + tail;
    } else {
      assert head + tail == tail;
    }
  }

  /** The first byte of a frame, its length. */
  lemma SizeRead(y: Peer, b: Block, c: byte, tail: seq<byte>)
    requires PeerOk(y) && y.phase.AwaitSize? && [c] + tail == Frame(b)
    ensures OnByte(y, c) == y.(phase := Reading(|b|, [])) && PeerOk(OnByte(y, c))
    ensures tail != [] && Collected(OnByte(y, c)) + tail == Frame(b)
  {
    hide Check;
    FrameParts(b, [c], tail);
    assert [c] + [] == [c];
  }

  /** A further byte; the last one completes the block and its checksum. */
  lemma DataRead(y: Peer, b: Block, c: byte, tail: seq<byte>)
    requires PeerOk(y) && y.phase.Reading? && Collected(y) + ([c] + tail) == Frame(b)
    ensures var y1 := OnByte(y, c);
            && PeerOk(y1) && y1.(phase := y.phase) == y
            && if tail == [] then y1.phase == Answering(|b|, b + Check(b))
               else Collecting(y1) && Collected(y1) + tail == Frame(b)
  {
    hide Check, Frame;
    var data := y.phase.data;
    FrameParts(b, Collected(y), [c] + tail);
    assert Collected(y)[1..] == data;
    assert data + ([c] + tail) == (data + [c]) + tail;
    assert Collected(y) + ([c] + tail) == ([y.phase.size as byte] + (data + [c])) + tail;
    assert (data + [c]) + [] == data + [c];
  }

  /** Between the sender and a receiver that has read on. */
  lemma TransferGoesOn(x: Peer, y: Peer, rest: seq<byte>)
    requires PeerOk(x) && (x.phase.Writing? || x.phase.AwaitAck?) && x.todo != [] && !y.mid
    requires var b, tail := x.todo[0], rest + Unwritten(x);
             if tail == [] then y.phase == Answering(|b|, b + Check(b))
             else Collecting(y) && Collected(y) + tail == Frame(b)
    ensures Transfer(x, y, rest, [])
  {
    hide Check, Frame, Collected;
    assert rest + [] == rest;
  }

  /** The receiver reads a byte of the frame. */
  lemma FrameRead(x: Peer, y: Peer, xy: seq<byte>, yx: seq<byte>) returns (y1: Peer)
    requires PeerOk(x) && PeerOk(y) && Transfer(x, y, xy, yx) && Collecting(y) && xy != []
    ensures y1 == OnByte(y, xy[0]) && PeerOk(y1) && Transfer(x, y1, xy[1..], yx) && y1.(phase := y.phase) == y
  {
    hide Check, Frame, PeerOk, OnByte, Collected;
    InFrame(x, y, xy, yx);
    var b, tail := x.todo[0], xy[1..] + Unwritten(x);
    y1 := OnByte(y, xy[0]);
    assert xy + Unwritten(x) == [xy[0]] + tail;
    if y.phase.AwaitSize? {
      assert Collected(y) == [] by { NothingCollected(y); }
      assert [] + ([xy[0]] + tail) == [xy[0]] + tail;
      SizeRead(y, b, xy[0], tail);
    } else {
      DataRead(y, b, xy[0], tail);
    }
    TransferGoesOn(x, y1, xy[1..]);
  }

  lemma NothingCollected(y: Peer)
    requires y.phase.AwaitSize?
    ensures Collected(y) == []
  {
  }

  lemma Answered(y: Peer, b: Block)
    requires PeerOk(y) && y.phase == Answering(|b|, b + Check(b))
    ensures Write(y, false) == if EndBit(b) then (ACK, Resume(y).(got := y.got + [b]))
                               else (ACK, y.(phase := AwaitEnq, got := y.got + [b]))
  {
    hide Check;
    var data := b + Check(b);
    assert data[..|b|] == b && data[|b|..] == Check(b);
  }

  lemma AckWritten(x: Peer, y: Peer, xy: seq<byte>, yx: seq<byte>, start: bool, allX: seq<Block>, allY: seq<Block>,
                   r: Moved)
    requires Good(y, x, yx, xy, allY, allX) && Transfer(x, y, xy, yx) && PeerMove(y, xy, start) == Some(r)
             && y.phase.Answering?
    ensures Good(r.p, x, yx + r.out, r.rest, allY, allX)
  {
    hide Check, Frame, Collected;
    var b := x.todo[0];
    Answered(y, b);
    assert y.got + x.todo == (y.got + [b]) + x.todo[1..];
    assert [] + [ACK] == [ACK];
  }

  /** The receiver hears the first ENQ, or sends its EOT. */
  lemma OpensTransfer(x: Peer, y: Peer, xy: seq<byte>, yx: seq<byte>, start: bool, allX: seq<Block>, allY: seq<Block>,
                      r: Moved)
    requires Good(y, x, yx, xy, allY, allX) && Transfer(x, y, xy, yx) && PeerMove(y, xy, start) == Some(r)
    requires x.phase.AwaitEot? && !Collecting(y)
    ensures Good(r.p, x, yx + r.out, r.rest, allY, allX)
  {
    hide Check, Frame, Acking, Collected;
    assert yx + [] == yx && [] + [EOT] == [EOT] && [] + [ENQ] == [ENQ];
  }

  /** Behind its ACK the receiver sends an ENQ of its own. */
  lemma OpensOwn(x: Peer, y: Peer, xy: seq<byte>, yx: seq<byte>, start: bool, allX: seq<Block>, allY: seq<Block>,
                 r: Moved)
    requires Good(y, x, yx, xy, allY, allX) && Transfer(x, y, xy, yx) && PeerMove(y, xy, start) == Some(r)
    requires x.phase.AwaitAck? && !Collecting(y) && !y.phase.Answering?
    ensures Good(r.p, x, yx + r.out, r.rest, allY, allX)
  {
    hide Check, Frame, Stale, Open;
    assert yx + [] == yx && [] + [ENQ] == [ENQ];
  }

  lemma NotWriting(x: Peer, y: Peer, xy: seq<byte>, yx: seq<byte>)
    requires Transfer(x, y, xy, yx) && !Collecting(y)
    ensures x.phase.AwaitEot? || x.phase.AwaitAck?
  {
    hide Frame, Collected;
  }

  lemma FrameReadGood(x: Peer, y: Peer, xy: seq<byte>, yx: seq<byte>, start: bool, allX: seq<Block>, allY: seq<Block>,
                      r: Moved)
    requires Good(y, x, yx, xy, allY, allX) && Transfer(x, y, xy, yx) && PeerMove(y, xy, start) == Some(r)
             && Collecting(y)
    ensures Good(r.p, x, yx + r.out, r.rest, allY, allX)
  {
    hide Transfer, Quiet, Contending, OnByte;
    var y1 := FrameRead(x, y, xy, yx);
    FrameReadPhase(x, y, xy, yx);
    assert yx + [] == yx;
  }

  lemma FrameReadPhase(x: Peer, y: Peer, xy: seq<byte>, yx: seq<byte>)
    requires Transfer(x, y, xy, yx) && Collecting(y) && xy != [] && PeerOk(x) && PeerOk(y)
    ensures yx == [] && !OnByte(y, xy[0]).phase.AwaitAck?
  {
    hide Frame;
  }

  /** The receiver's move in a transfer. */
  lemma ReceiverMoves(x: Peer, y: Peer, xy: seq<byte>, yx: seq<byte>, start: bool, allX: seq<Block>, allY: seq<Block>,
                      r: Moved)
    requires Good(y, x, yx, xy, allY, allX) && Transfer(x, y, xy, yx) && PeerMove(y, xy, start) == Some(r)
    ensures Good(r.p, x, yx + r.out, r.rest, allY, allX)
  {
    hide Good, Transfer, PeerMove;
    if Collecting(y) {
      FrameReadGood(x, y, xy, yx, start, allX, allY, r);
    } else if y.phase.Answering? {
      AckWritten(x, y, xy, yx, start, allX, allY, r);
    } else if x.phase.AwaitEot? {
      OpensTransfer(x, y, xy, yx, start, allX, allY, r);
    } else {
      assert x.phase.AwaitAck? by { NotWriting(x, y, xy, yx); }
      OpensOwn(x, y, xy, yx, start, allX, allY, r);
    }
  }

  // ---------------------------------------------------------------- every move, and its measure

  lemma MovesKeepGood(x: Peer, y: Peer, xy: seq<byte>, yx: seq<byte>, start: bool, allX: seq<Block>, allY: seq<Block>,
                      r: Moved)
    requires Good(x, y, xy, yx, allX, allY) && PeerMove(x, yx, start) == Some(r)
    ensures Good(r.p, y, xy + r.out, r.rest, allX, allY)
  {
    hide PeerMove, Quiet, Transfer, Contending, Carried, PeerOk;
    if Quiet(x, y, xy, yx) || Quiet(y, x, yx, xy) {
      QuietMoves(x, y, xy, yx, start, allX, allY, r);
    } else if Contending(x, y, xy, yx) || Contending(y, x, yx, xy) {
      ContendingMoves(x, y, xy, yx, start, allX, allY, r);
    } else if Transfer(x, y, xy, yx) {
      SenderMoves(x, y, xy, yx, start, allX, allY, r);
    } else {
      ReceiverMoves(y, x, yx, xy, start, allY, allX, r);
    }
  }

  lemma GoodSwaps(x: Peer, y: Peer, xy: seq<byte>, yx: seq<byte>, allX: seq<Block>, allY: seq<Block>)
    ensures Good(x, y, xy, yx, allX, allY) == Good(y, x, yx, xy, allY, allX)
  {
    hide Quiet, Transfer, Contending, Carried, PeerOk;
  }

  predicate Invariant(l: Link, allA: seq<Block>, allB: seq<Block>) {
    Good(l.a, l.b, l.ab, l.ba, allA, allB)
  }

  lemma StepKeepsInvariant(l: Link, m: Move, l1: Link, allA: seq<Block>, allB: seq<Block>)
    requires Invariant(l, allA, allB) && Advance(l, m) == Some(l1)
    ensures Invariant(l1, allA, allB)
  {
    hide Joint, Carried, PeerOk, PeerMove;
    if m.byA {
      var r := PeerMove(l.a, l.ba, m.start).value;
      MovesKeepGood(l.a, l.b, l.ab, l.ba, m.start, allA, allB, r);
    } else {
      var r := PeerMove(l.b, l.ab, m.start).value;
      GoodSwaps(l.a, l.b, l.ab, l.ba, allA, allB);
      MovesKeepGood(l.b, l.a, l.ba, l.ab, m.start, allB, allA, r);
      GoodSwaps(l1.a, l1.b, l1.ab, l1.ba, allA, allB);
    }
  }
}
