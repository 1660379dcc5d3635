/** The SECS-I link between two peers, byte by byte: `send_secsI` and the block loop of `send_secsII`
    (source/send_secs.c:153-291 and 297-478), `recv_secsI` and the block loop of `recv_secs`
    (source/recv_secs.c:104-190 and 315-520), as one state machine a peer. The lines lose nothing and
    no timer runs out (section 7 of SEMI E4). */
module LinkProtocol {
  import opened Tokens
  import opened Bytes
  import opened Checksums

  const ENQ: byte := 0x05
  const EOT: byte := 0x04
  const ACK: byte := 0x06
  const NAK: byte := 0x15

  /** `Sender`: the phases of a send; `Receiver`: those of a receive. `Junk` is the wait for silence
      after a wrong block, whose bytes are dropped and which only a timer ends; `GaveUp` is the end of
      the retries of a block. */
  datatype Phase =
    | Idle
    | MustEnq | AwaitEot | Writing(left: seq<byte>) | AwaitAck
    | AwaitEnq | MustEot | AwaitSize | Reading(size: nat, data: seq<byte>) | Answering(size: nat, data: seq<byte>)
    | Junk | GaveUp

  /** A peer: the blocks it has still to send, whether the next is not the first of its message,
      whether it receives while its own block waits, the tries left for that block, and the blocks
      received. */
  datatype Peer = Peer(rbit: bool, phase: Phase, todo: seq<Block>, mid: bool, yielded: bool, tries: nat,
                       got: seq<Block>)

  const TRIES: nat := 4

  function Frame(b: Block): (f: seq<byte>)
    ensures |f| == |b| + 3
  {
    [|b| as byte] + (b + Check(b))
  }

  predicate Sends(ph: Phase) { ph.MustEnq? || ph.AwaitEot? || ph.Writing? || ph.AwaitAck? }
  predicate Receives(ph: Phase) { ph.AwaitEnq? || ph.MustEot? || ph.AwaitSize? || ph.Reading? || ph.Answering? }

  /** What every peer keeps. */
  predicate PeerOk(p: Peer) {
    && (Sends(p.phase) || p.mid || p.yielded ==> p.todo != [])
    && (p.todo != [] ==> EndBit(p.todo[|p.todo| - 1]))
    && (p.yielded ==> !p.rbit && !p.mid && (Receives(p.phase) || p.phase.Junk?))
    && (p.phase.Idle? ==> !p.mid)
    && match p.phase
       case Writing(left) => left != []
       case Reading(n, data) => 10 <= n <= 254 && |data| < n + 2
       case Answering(n, data) => 10 <= n <= 254 && |data| == n + 2 && data[n..] == Check(data[..n])
       case _ => true
  }

  /** A received message is over: back to the script, or to the block that had to wait. */
  function Resume(p: Peer): Peer {
    if p.yielded then p.(phase := MustEnq, yielded := false, tries := TRIES) else p.(phase := Idle)
  }

  function Acknowledged(p: Peer): Peer
    requires p.todo != []
  {
    var more := !EndBit(p.todo[0]) && |p.todo| > 1;
    p.(todo := p.todo[1..], mid := more, tries := TRIES, phase := if more then MustEnq else Idle)
  }

  /** The block is complete with the second byte of its checksum. A wrong one is answered only when the
      line is silent: source/recv_secs.c:398-487. */
  function OnData(n: nat, data: seq<byte>): Phase
    requires 10 <= n <= 254 && |data| <= n + 2
  {
    if |data| < n + 2 then Reading(n, data)
    else if data[n..] == Check(data[..n]) then Answering(n, data)
    else Junk
  }

  /** A byte read. */
  function OnByte(p: Peer, c: byte): Peer
    requires PeerOk(p)
  {
    match p.phase
    case Idle => if c == ENQ then p.(phase := MustEot) else p
    case AwaitEnq => if c == ENQ then p.(phase := MustEot) else Resume(p)
    case AwaitEot =>
      if c == EOT then p.(phase := Writing(Frame(p.todo[0])))
      else if c == ENQ && !p.rbit then p.(phase := MustEot, yielded := true)
      else p
    case AwaitAck =>
      if c == ACK then Acknowledged(p)
      else if p.tries > 1 then p.(phase := MustEnq, tries := p.tries - 1)
      else p.(phase := GaveUp)
    case AwaitSize =>
      if c == ENQ then p
      else if 10 <= c <= 254 then p.(phase := Reading(c, []))
      else p.(phase := Junk)
    case Reading(n, data) => p.(phase := OnData(n, data + [c]))
    case _ => p
  }

  predicate CanRead(ph: Phase) {
    ph.Idle? || ph.AwaitEot? || ph.AwaitAck? || ph.AwaitEnq? || ph.AwaitSize? || ph.Reading? || ph.Junk?
  }

  predicate CanWrite(p: Peer, start: bool) {
    p.phase.MustEnq? || p.phase.Writing? || p.phase.MustEot? || p.phase.Answering?
      || (start && p.phase.Idle? && p.todo != [])
  }

  function Answer(p: Peer, n: nat, data: seq<byte>): (byte, Peer)
    requires 10 <= n <= 254 && |data| == n + 2
  {
    var b: Block := data[..n];
    if EndBit(b) then (ACK, Resume(p).(got := p.got + [b]))
    else (ACK, p.(phase := AwaitEnq, got := p.got + [b]))
  }

  /** `completion`: the timer T1 has run out. */
  function Silence(p: Peer): (byte, Peer)
    requires p.phase.Junk?
  {
    (NAK, Resume(p))
  }

  /** The byte written, and the peer behind it. */
  function Write(p: Peer, start: bool): (byte, Peer)
    requires PeerOk(p) && CanWrite(p, start)
  {
    match p.phase
    case Writing(left) => (left[0], p.(phase := if |left| == 1 then AwaitAck else Writing(left[1..])))
    case MustEot => (EOT, p.(phase := AwaitSize))
    case Answering(n, data) => Answer(p, n, data)
    case _ => (ENQ, p.(phase := AwaitEot))
  }

  /** A move of a peer with the line it reads: the peer, the rest of the line, the bytes written. */
  datatype Moved = Moved(p: Peer, rest: seq<byte>, out: seq<byte>)

  /** An idle peer starts a send, or reads; the other phases have one move each. */
  function PeerMove(p: Peer, line: seq<byte>, start: bool): Option<Moved>
    requires PeerOk(p)
  {
    if CanWrite(p, start) then
      var (c, q) := Write(p, start);
      Some(Moved(q, line, [c]))
    else if CanRead(p.phase) && line != [] then Some(Moved(OnByte(p, line[0]), line[1..], []))
    else None
  }

  /** Two peers and the bytes on the line from each to the other. */
  datatype Link = Link(a: Peer, b: Peer, ab: seq<byte>, ba: seq<byte>)
  datatype Move = Move(byA: bool, start: bool)

  function Advance(l: Link, m: Move): Option<Link>
    requires PeerOk(l.a) && PeerOk(l.b)
  {
    if m.byA then
      match PeerMove(l.a, l.ba, m.start)
      case None => None
      case Some(r) => Some(Link(r.p, l.b, l.ab + r.out, r.rest))
    else
      match PeerMove(l.b, l.ab, m.start)
      case None => None
      case Some(r) => Some(Link(l.a, r.p, r.rest, l.ba + r.out))
  }

  function Fresh(rbit: bool, todo: seq<Block>): Peer {
    Peer(rbit, Idle, todo, false, false, TRIES, [])
  }

  // ---------------------------------------------------------------- a wrong block

  /** Bytes read one behind the other by a receiver. */
  function Hears(p: Peer, s: seq<byte>): Peer
    requires PeerOk(p)
    decreases |s|
  {
    if s == [] then p
    else if PeerOk(OnByte(p, s[0])) then Hears(OnByte(p, s[0]), s[1..]) else p
  }

  lemma {:induction false} HearsData(p: Peer, n: nat, data: seq<byte>, s: seq<byte>, more: seq<byte>)
    requires PeerOk(p) && p.phase == Reading(n, data) && |data| + |s| == n + 2
    ensures var q := p.(phase := OnData(n, data + s)); PeerOk(q) && Hears(p, s + more) == Hears(q, more)
    decreases |s|
  {
    hide Check;
    var c, q := s[0], OnByte(p, s[0]);
    assert (s + more)[0] == c && (s + more)[1..] == s[1..] + more;
    if |s| == 1 {
      assert s == [c] && s[1..] + more == more;
    } else {
      HearsData(q, n, data + [c], s[1..], more);
      assert (data + [c]) + s[1..] == data + s;
    }
  }

  lemma {:induction false} HearsJunk(p: Peer, s: seq<byte>)
    requires PeerOk(p) && p.phase.Junk?
    ensures Hears(p, s) == p
    decreases |s|
  {
    if s != [] { HearsJunk(p, s[1..]); }
  }

  /** A receiver to which a block is sent with one wrong byte, and the checksum of the right one: it
      drops the block and whatever comes behind it, and when the line is silent it writes NAK, with
      nothing taken. */
  lemma WrongByteRefused(p: Peer, b: Block, i: nat, x: byte, more: seq<byte>)
    requires PeerOk(p) && p.phase.AwaitSize? && i < |b| && x != b[i]
    ensures var q := Hears(p, [|b| as byte] + (b[i := x] + Check(b)) + more);
            q == p.(phase := Junk) && Silence(q).0 == 0x15 && Silence(q).1 == Resume(p) && Resume(p).got == p.got
  {
    hide Check, OnData, PeerOk, OnByte, Hears;
    var data := b[i := x] + Check(b);
    WrongData(b, i, x);
    HearsSize(p, |b|, data + more);
    assert [|b| as byte] + data + more == [|b| as byte] + (data + more);
    assert [] + data == data;
    HearsData(p.(phase := Reading(|b|, [])), |b|, [], data, more);
    HearsJunk(p.(phase := Junk), more);
    assert Silence(p.(phase := Junk)).1 == Resume(p);
  }

  /** The same block without a wrong byte is taken and answered with ACK. */
  lemma RightBlockTaken(p: Peer, b: Block)
    requires PeerOk(p) && p.phase.AwaitSize?
    ensures var q := Hears(p, [|b| as byte] + (b + Check(b)));
            && PeerOk(q) && CanWrite(q, false)
            && Write(q, false).0 == 0x06 && Write(q, false).1.got == p.got + [b]
  {
    hide Check, PeerOk, OnByte, Hears;
    var data := b + Check(b);
    assert data[..|b|] == b && data[|b|..] == Check(b);
    HearsSize(p, |b|, data);
    assert [] + data == data && data + [] == data;
    var q := p.(phase := Reading(|b|, []));
    HearsData(q, |b|, [], data, []);
    assert Hears(q.(phase := Answering(|b|, data)), []) == q.(phase := Answering(|b|, data)) by {
      HearsNothing(q.(phase := Answering(|b|, data)));
    }
  }

  lemma HearsNothing(p: Peer)
    requires PeerOk(p)
    ensures Hears(p, []) == p
  {
  }

  lemma WrongData(b: Block, i: nat, x: byte)
    requires i < |b| && x != b[i]
    ensures |b[i := x] + Check(b)| == |b| + 2 && OnData(|b|, b[i := x] + Check(b)) == Junk
  {
    hide Check;
    OneByteDetected(b, i, x);
    var data := b[i := x] + Check(b);
    assert data[..|b|] == b[i := x] && data[|b|..] == Check(b);
  }

  lemma HearsSize(p: Peer, n: byte, more: seq<byte>)
    requires PeerOk(p) && p.phase.AwaitSize? && 10 <= n <= 254
    ensures var q := p.(phase := Reading(n, [])); PeerOk(q) && Hears(p, [n] + more) == Hears(q, more)
  {
    hide Check;
    assert ([n] + more)[0] == n && ([n] + more)[1..] == more;
  }

  // ---------------------------------------------------------------- a block that is refused

  /** The bytes of a block written one behind the other. */
  function WriteOut(p: Peer): (r: (seq<byte>, Peer))
    requires PeerOk(p) && p.phase.Writing?
    decreases |p.phase.left|
  {
    var (c, q) := Write(p, false);
    if PeerOk(q) && q.phase.Writing? && |q.phase.left| < |p.phase.left| then
      var (more, r) := WriteOut(q);
      ([c] + more, r)
    else ([c], q)
  }

  lemma {:induction false} AllWritten(p: Peer)
    requires PeerOk(p) && p.phase.Writing?
    ensures WriteOut(p) == (p.phase.left, p.(phase := AwaitAck))
    decreases |p.phase.left|
  {
    var left := p.phase.left;
    if |left| > 1 {
      AllWritten(p.(phase := Writing(left[1..])));
      assert [left[0]] + left[1..] == left;
    } else {
      assert left == [left[0]];
    }
  }

  /** A try: ENQ, the EOT of the other side, the block, and its NAK, the bytes of section 7 of SEMI E4. */
  function Try(p: Peer): (r: (seq<byte>, Peer))
    requires PeerOk(p) && p.phase.MustEnq?
  {
    var (c, q) := Write(p, false);
    var (frame, q1) := WriteOut(OnByte(q, 0x04));
    ([c] + frame, if PeerOk(q1) then OnByte(q1, 0x15) else q1)
  }

  /** A refused block stays the first to send and is sent again, ENQ and all of it, as long as tries are
      left. */
  lemma RefusedAgain(p: Peer)
    requires PeerOk(p) && p.phase.MustEnq?
    ensures Try(p) == ([0x05] + Frame(p.todo[0]),
                       if p.tries > 1 then p.(tries := p.tries - 1) else p.(phase := GaveUp))
  {
    hide Frame, Check;
    var q := p.(phase := AwaitEot);
    assert Frame(p.todo[0]) != [];
    AllWritten(q.(phase := Writing(Frame(p.todo[0]))));
  }

  /** How often a block is sent to a side that refuses it every time, and the peer behind that. */
  function Tries(p: Peer): (r: (nat, Peer))
    requires PeerOk(p) && p.phase.MustEnq?
    decreases p.tries
  {
    var q := Try(p).1;
    if PeerOk(q) && q.phase.MustEnq? && q.tries < p.tries then
      var (n, r) := Tries(q);
      (n + 1, r)
    else (1, q)
  }

  lemma {:induction false} TriesCount(p: Peer)
    requires PeerOk(p) && p.phase.MustEnq? && p.tries > 0
    ensures Tries(p) == (p.tries, p.(phase := GaveUp, tries := 1))
    decreases p.tries
  {
    hide Try, Frame;
    RefusedAgain(p);
    if p.tries > 1 { TriesCount(p.(tries := p.tries - 1)); }
  }

  /** Every block is sent four times at most: the first of a message, one behind an acknowledged one, and
      one that had to wait. */
  lemma FourTries(p: Peer)
    requires PeerOk(p) && p.todo != []
    ensures Fresh(p.rbit, p.todo).tries == 4 && Acknowledged(p).tries == 4 && (p.yielded ==> Resume(p).tries == 4)
    ensures var q := p.(phase := MustEnq, tries := 4, yielded := false);
            PeerOk(q) && Tries(q) == (4, q.(phase := GaveUp, tries := 1))
  {
    hide Tries, Check;
    TriesCount(p.(phase := MustEnq, tries := 4, yielded := false));
  }
}
