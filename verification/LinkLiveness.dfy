/** Every run of the link ends, and where it cannot go on everything has been delivered; with `rbit`
    on both sides or on neither there are runs that get stuck. */
module LinkLiveness {
  import opened Tokens
  import opened Bytes
  import opened Checksums
  import opened LinkProtocol
  import opened LinkSafety

  // ---------------------------------------------------------------- every move makes progress

  function Potential(p: Peer): nat {
    match p.phase
    case Writing(left) => 2 * |left|
    case MustEot => 2
    case AwaitEot => 520
    case MustEnq => 530
    case Idle => 530
    case AwaitEnq => 530
    case _ => 0
  }

  function Work(x: Peer, y: Peer, xy: seq<byte>, yx: seq<byte>, total: nat): int {
    1000 * (total - |x.got| - |y.got| + |x.todo| + |y.todo|) + Potential(x) + Potential(y) + |xy| + |yx|
  }

  lemma MovesProgress(x: Peer, y: Peer, xy: seq<byte>, yx: seq<byte>, start: bool, allX: seq<Block>, allY: seq<Block>,
                      r: Moved,
                      total: nat)
    requires Good(x, y, xy, yx, allX, allY) && PeerMove(x, yx, start) == Some(r)
    ensures Work(r.p, y, xy + r.out, r.rest, total) < Work(x, y, xy, yx, total)
  {
    hide Joint, Carried, PeerOk, PeerMove, Work;
    if x.phase.AwaitAck? && yx != [] {
      AcksOnly(x, y, xy, yx, allX, allY);
    } else if x.phase.Answering? {
      AnswersWell(x, y, xy, yx, allX, allY);
    }
    MoveShrinks(x, y, xy, yx, start, r, total);
  }

  lemma MoveShrinks(x: Peer, y: Peer, xy: seq<byte>, yx: seq<byte>, start: bool, r: Moved, total: nat)
    requires PeerOk(x) && PeerMove(x, yx, start) == Some(r)
    requires x.phase.AwaitAck? && yx != [] ==> yx[0] == ACK
    requires x.phase.Answering? ==> x.phase.data[x.phase.size..] == Check(x.phase.data[..x.phase.size])
    ensures Work(r.p, y, xy + r.out, r.rest, total) < Work(x, y, xy, yx, total)
  {
    hide Check;
  }

  /** Without line faults only ACK comes back, and only good blocks are answered. */
  lemma AcksOnly(x: Peer, y: Peer, xy: seq<byte>, yx: seq<byte>, allX: seq<Block>, allY: seq<Block>)
    requires Good(x, y, xy, yx, allX, allY) && x.phase.AwaitAck? && yx != []
    ensures yx[0] == ACK
  {
    hide Frame;
  }

  lemma AnswersWell(x: Peer, y: Peer, xy: seq<byte>, yx: seq<byte>, allX: seq<Block>, allY: seq<Block>)
    requires Good(x, y, xy, yx, allX, allY) && x.phase.Answering?
    ensures x.phase.data[x.phase.size..] == Check(x.phase.data[..x.phase.size])
  {
    hide Frame, Check;
    var b := y.todo[0];
    assert (b + Check(b))[..|b|] == b && (b + Check(b))[|b|..] == Check(b);
  }

  function Measure(l: Link, allA: seq<Block>, allB: seq<Block>): int {
    Work(l.a, l.b, l.ab, l.ba, |allA| + |allB|)
  }

  lemma WorkBound(x: Peer, y: Peer, xy: seq<byte>, yx: seq<byte>, allX: seq<Block>, allY: seq<Block>)
    requires Good(x, y, xy, yx, allX, allY)
    ensures Work(x, y, xy, yx, |allX| + |allY|) >= 0
  {
    hide Joint, PeerOk;
    assert |x.got| + |y.got| <= |allX| + |allY| + |x.todo| + |y.todo|;
  }

  lemma StepProgresses(l: Link, m: Move, l1: Link, allA: seq<Block>, allB: seq<Block>)
    requires Invariant(l, allA, allB) && Advance(l, m) == Some(l1)
    ensures 0 <= Measure(l1, allA, allB) < Measure(l, allA, allB)
  {
    hide Joint, Carried, PeerOk, PeerMove, Work;
    StepKeepsInvariant(l, m, l1, allA, allB);
    WorkBound(l1.a, l1.b, l1.ab, l1.ba, allA, allB);
    StepShrinks(l, m, l1, allA, allB);
  }

  lemma StepShrinks(l: Link, m: Move, l1: Link, allA: seq<Block>, allB: seq<Block>)
    requires Invariant(l, allA, allB) && PeerOk(l.a) && PeerOk(l.b) && Advance(l, m) == Some(l1)
    ensures Measure(l1, allA, allB) < Measure(l, allA, allB)
  {
    hide Good, PeerMove, PeerOk, Potential;
    if m.byA {
      var r := PeerMove(l.a, l.ba, m.start).value;
      MovesProgress(l.a, l.b, l.ab, l.ba, m.start, allA, allB, r, |allA| + |allB|);
    } else {
      var r := PeerMove(l.b, l.ab, m.start).value;
      GoodSwaps(l.a, l.b, l.ab, l.ba, allA, allB);
      MovesProgress(l.b, l.a, l.ba, l.ab, m.start, allB, allA, r, |allA| + |allB|);
    }
  }

  // ---------------------------------------------------------------- where no move is left

  ghost predicate NoMove(l: Link) {
    PeerOk(l.a) && PeerOk(l.b) && forall m: Move :: Advance(l, m).None?
  }

  predicate Delivered(l: Link, allA: seq<Block>, allB: seq<Block>) {
    && l.b.got == allA && l.a.got == allB && l.a.todo == [] && l.b.todo == []
    && l.a.phase.Idle? && l.b.phase.Idle? && l.ab == [] && l.ba == []
  }

  predicate Still(p: Peer, line: seq<byte>) {
    PeerOk(p) && !CanWrite(p, true) && (CanRead(p.phase) ==> line == [])
  }

  lemma StillMeans(l: Link)
    requires NoMove(l)
    ensures Still(l.a, l.ba) && Still(l.b, l.ab)
  {
    hide PeerOk, Write, OnByte;
    assert Advance(l, Move(true, true)).None? && Advance(l, Move(false, true)).None?;
  }

  lemma StillDelivered(x: Peer, y: Peer, xy: seq<byte>, yx: seq<byte>, allX: seq<Block>, allY: seq<Block>)
    requires Good(x, y, xy, yx, allX, allY) && Still(x, yx) && Still(y, xy)
    ensures x.phase.Idle? && y.phase.Idle? && x.todo == [] && y.todo == [] && xy == [] && yx == []
    ensures y.got == allX && x.got == allY
  {
    hide Check;
    assert y.got + [] == y.got && x.got + [] == x.got;
    if Transfer(x, y, xy, yx) { StillTransfer(x, y, xy, yx); }
    if Transfer(y, x, yx, xy) { StillTransfer(y, x, yx, xy); }
  }

  /** A transfer can always go on. */
  lemma StillTransfer(x: Peer, y: Peer, xy: seq<byte>, yx: seq<byte>)
    requires Transfer(x, y, xy, yx) && PeerOk(x) && PeerOk(y)
    ensures !(Still(x, yx) && Still(y, xy))
  {
    hide Check, Frame;
  }

  // ---------------------------------------------------------------- runs

  predicate Reaches(l: Link, ms: seq<Move>, l1: Link)
    decreases |ms|
  {
    if ms == [] then l == l1
    else
      PeerOk(l.a) && PeerOk(l.b) &&
      match Advance(l, ms[0])
      case None => false
      case Some(k) => Reaches(k, ms[1..], l1)
  }

  function Begin(ra: bool, rb: bool, allA: seq<Block>, allB: seq<Block>): Link {
    Link(Fresh(ra, allA), Fresh(rb, allB), [], [])
  }

  predicate Messages(s: seq<Block>) { s != [] ==> EndBit(s[|s| - 1]) }

  lemma {:induction false} RunKeepsInvariant(l: Link, ms: seq<Move>, l1: Link, allA: seq<Block>, allB: seq<Block>)
    requires Invariant(l, allA, allB) && Reaches(l, ms, l1)
    ensures Invariant(l1, allA, allB) && 0 <= Measure(l1, allA, allB) <= Measure(l, allA, allB) - |ms|
    decreases |ms|
  {
    hide Advance, Measure, Invariant, PeerOk;
    if ms == [] {
      MeasurePositive(l, allA, allB);
    } else {
      var k := Advance(l, ms[0]).value;
      StepKeepsInvariant(l, ms[0], k, allA, allB);
      StepProgresses(l, ms[0], k, allA, allB);
      RunKeepsInvariant(k, ms[1..], l1, allA, allB);
    }
  }

  lemma MeasurePositive(l: Link, allA: seq<Block>, allB: seq<Block>)
    requires Invariant(l, allA, allB)
    ensures Measure(l, allA, allB) >= 0
  {
    hide Good, Work;
    WorkBound(l.a, l.b, l.ab, l.ba, allA, allB);
  }

  /** Any run from two idle peers, exactly one with `rbit`: at every point what has been received is
      the beginning of what the other side had to send, block by block; the run is no longer than the
      work at its start; and where no move is left everything has been delivered. */
  lemma RunsDeliver(ra: bool, rb: bool, allA: seq<Block>, allB: seq<Block>, ms: seq<Move>, l: Link)
    requires ra != rb && Messages(allA) && Messages(allB) && Reaches(Begin(ra, rb, allA, allB), ms, l)
    ensures l.b.got <= allA && l.a.got <= allB
    ensures |ms| <= Measure(Begin(ra, rb, allA, allB), allA, allB)
    ensures NoMove(l) ==> Delivered(l, allA, allB)
  {
    hide Reaches, Measure, NoMove;
    var l0 := Begin(ra, rb, allA, allB);
    assert Invariant(l0, allA, allB) by { BeginsGood(ra, rb, allA, allB); }
    RunKeepsInvariant(l0, ms, l, allA, allB);
    GotPrefix(l.a, l.b, l.ab, l.ba, allA, allB);
    if NoMove(l) {
      StillMeans(l);
      StillDelivered(l.a, l.b, l.ab, l.ba, allA, allB);
    }
  }

  lemma BeginsGood(ra: bool, rb: bool, allA: seq<Block>, allB: seq<Block>)
    requires ra != rb && Messages(allA) && Messages(allB)
    ensures Invariant(Begin(ra, rb, allA, allB), allA, allB)
  {
    assert [] + allA == allA && [] + allB == allB;
  }

  lemma GotPrefix(x: Peer, y: Peer, xy: seq<byte>, yx: seq<byte>, allX: seq<Block>, allY: seq<Block>)
    requires Good(x, y, xy, yx, allX, allY)
    ensures y.got <= allX && x.got <= allY
  {
    hide Joint, PeerOk;
  }

  // ---------------------------------------------------------------- contention

  /** When both sides have begun, whoever moves: either nothing is decided yet, or the side without
      `rbit` has yielded, its block still the first it has to send, and the other side's transfer is
      on. */
  lemma ContentionResolves(x: Peer, y: Peer, xy: seq<byte>, yx: seq<byte>, start: bool)
    requires PeerOk(x) && PeerOk(y) && !y.rbit && Contending(x, y, xy, yx)
    ensures match PeerMove(x, yx, start)
            case None => true
            case Some(r) => r.p == x && Contending(r.p, y, xy + r.out, r.rest)
    ensures PeerMove(y, xy, start).Some?
    ensures var r := PeerMove(y, xy, start).value;
            r.p.yielded && r.p.todo == y.todo && r.p.got == y.got && Transfer(x, r.p, r.rest, yx + r.out)
  {
  }

  /** A block that ends a message has come to `y` since it had `n` blocks. */
  predicate Ended(y: Peer, n: nat) { exists k :: n <= k < |y.got| && EndBit(y.got[k]) }

  /** `y` has given way to `x`, or has to, and nothing of it has arrived in the meantime. */
  predicate GivesWay(x: Peer, y: Peer, xy: seq<byte>, yx: seq<byte>, had: seq<Block>, n: nat) {
    x.got == had && n <= |y.got| && (y.yielded || (!y.rbit && Contending(x, y, xy, yx)))
  }

  lemma GotGrows(x: Peer, yx: seq<byte>, start: bool, r: Moved)
    requires PeerOk(x) && PeerMove(x, yx, start) == Some(r)
    ensures x.got <= r.p.got && (!x.phase.Answering? ==> r.p.got == x.got)
  {
    hide Check;
  }

  /** A side that has given way does not send. */
  lemma NotAnswering(x: Peer, y: Peer, xy: seq<byte>, yx: seq<byte>, allX: seq<Block>, allY: seq<Block>)
    requires Good(x, y, xy, yx, allX, allY) && (y.yielded || Contending(x, y, xy, yx))
    ensures !x.phase.Answering?
  {
    hide Check, Frame, Carried;
  }

  lemma InsistingMoves(x: Peer, y: Peer, xy: seq<byte>, yx: seq<byte>, start: bool, allX: seq<Block>, allY: seq<Block>,
                       r: Moved, had: seq<Block>, n: nat)
    requires Good(x, y, xy, yx, allX, allY) && GivesWay(x, y, xy, yx, had, n) && PeerMove(x, yx, start) == Some(r)
    ensures GivesWay(r.p, y, xy + r.out, r.rest, had, n)
  {
    hide Joint, Carried, PeerMove, Contending, PeerOk;
    NotAnswering(x, y, xy, yx, allX, allY);
    GotGrows(x, yx, start, r);
    if !y.yielded { ContentionResolves(x, y, xy, yx, start); }
  }

  lemma YieldingMoves(x: Peer, y: Peer, xy: seq<byte>, yx: seq<byte>, start: bool, allX: seq<Block>, allY: seq<Block>,
                      r: Moved, had: seq<Block>, n: nat)
    requires Good(x, y, xy, yx, allX, allY) && GivesWay(x, y, xy, yx, had, n) && PeerMove(y, xy, start) == Some(r)
    ensures Ended(r.p, n) || GivesWay(x, r.p, r.rest, yx + r.out, had, n)
  {
    hide Joint, Carried, PeerMove, Contending, PeerOk, Ended;
    GotGrows(y, xy, start, r);
    if !y.yielded {
      ContentionResolves(x, y, xy, yx, start);
    } else {
      YieldedMoves(x, y, xy, yx, start, allX, allY, r);
      if !r.p.yielded { EndedBy(y, r.p, n); }
    }
  }

  /** Only the end of a message brings the side that has given way back to its own. */
  lemma YieldedMoves(x: Peer, y: Peer, xy: seq<byte>, yx: seq<byte>, start: bool, allX: seq<Block>, allY: seq<Block>,
                     r: Moved)
    requires Good(x, y, xy, yx, allX, allY) && y.yielded && PeerMove(y, xy, start) == Some(r)
    ensures !r.p.yielded ==> |r.p.got| == |y.got| + 1 && EndBit(r.p.got[|y.got|])
  {
    hide Check, Frame, Carried;
  }

  lemma EndedBy(y: Peer, y1: Peer, n: nat)
    requires n <= |y.got| && |y1.got| == |y.got| + 1 && EndBit(y1.got[|y.got|])
    ensures Ended(y1, n)
  {
  }

  /** The same of the link, `a` being the side that insists or the one that gives way. */
  predicate Waits(l: Link, a: bool, had: seq<Block>, n: nat) {
    if a then GivesWay(l.a, l.b, l.ab, l.ba, had, n) else GivesWay(l.b, l.a, l.ba, l.ab, had, n)
  }

  function Yielding(l: Link, a: bool): Peer { if a then l.b else l.a }
  function Insisting(l: Link, a: bool): Peer { if a then l.a else l.b }

  lemma WaitsOn(l: Link, m: Move, l1: Link, allA: seq<Block>, allB: seq<Block>, a: bool, had: seq<Block>, n: nat)
    requires Invariant(l, allA, allB) && Advance(l, m) == Some(l1) && (Waits(l, a, had, n) || Ended(Yielding(l, a), n))
    ensures Waits(l1, a, had, n) || Ended(Yielding(l1, a), n)
  {
    hide Joint, Carried, PeerMove, GivesWay, PeerOk, Ended;
    GoodSwaps(l.a, l.b, l.ab, l.ba, allA, allB);
    var r := if m.byA then PeerMove(l.a, l.ba, m.start).value else PeerMove(l.b, l.ab, m.start).value;
    if Ended(Yielding(l, a), n) {
      if m.byA { GotGrows(l.a, l.ba, m.start, r); } else { GotGrows(l.b, l.ab, m.start, r); }
      EndedStays(Yielding(l, a), Yielding(l1, a), n);
    } else if a {
      if m.byA { InsistingMoves(l.a, l.b, l.ab, l.ba, m.start, allA, allB, r, had, n); }
      else { YieldingMoves(l.a, l.b, l.ab, l.ba, m.start, allA, allB, r, had, n); }
    } else {
      if m.byA { YieldingMoves(l.b, l.a, l.ba, l.ab, m.start, allB, allA, r, had, n); }
      else { InsistingMoves(l.b, l.a, l.ba, l.ab, m.start, allB, allA, r, had, n); }
    }
  }

  lemma EndedStays(y: Peer, y1: Peer, n: nat)
    requires Ended(y, n) && y.got <= y1.got
    ensures Ended(y1, n)
  {
    var k :| n <= k < |y.got| && EndBit(y.got[k]);
    assert y1.got[k] == y.got[k];
  }

  lemma {:induction false} RunWaits(l: Link, ms: seq<Move>, l1: Link, allA: seq<Block>, allB: seq<Block>, a: bool,
                                    had: seq<Block>, n: nat)
    requires Invariant(l, allA, allB) && Reaches(l, ms, l1) && (Waits(l, a, had, n) || Ended(Yielding(l, a), n))
    ensures Waits(l1, a, had, n) || Ended(Yielding(l1, a), n)
    decreases |ms|
  {
    hide Advance, Waits, Invariant, PeerOk, Ended;
    if ms != [] {
      var k := Advance(l, ms[0]).value;
      StepKeepsInvariant(l, ms[0], k, allA, allB);
      WaitsOn(l, ms[0], k, allA, allB, a, had, n);
      RunWaits(k, ms[1..], l1, allA, allB, a, had, n);
    }
  }

  /** In any run from where both sides have begun, no block of the side without `rbit` arrives before
      the other side's message is over. */
  lemma InsistingFirst(l: Link, ms: seq<Move>, l1: Link, allA: seq<Block>, allB: seq<Block>, a: bool)
    requires Invariant(l, allA, allB) && Reaches(l, ms, l1)
    requires if a then Contending(l.a, l.b, l.ab, l.ba) else Contending(l.b, l.a, l.ba, l.ab)
    ensures Insisting(l1, a).got != Insisting(l, a).got ==> Ended(Yielding(l1, a), |Yielding(l, a).got|)
  {
    hide Reaches, Joint, Carried, PeerOk, Ended;
    RunWaits(l, ms, l1, allA, allB, a, Insisting(l, a).got, |Yielding(l, a).got|);
  }

  // ---------------------------------------------------------------- and with both or neither

  /** No run gets stuck before everything is delivered. */
  ghost predicate AlwaysDelivers(ra: bool, rb: bool, allA: seq<Block>, allB: seq<Block>) {
    forall ms: seq<Move>, l: Link {:trigger Reaches(Begin(ra, rb, allA, allB), ms, l)} ::
      Reaches(Begin(ra, rb, allA, allB), ms, l) && NoMove(l) ==> Delivered(l, allA, allB)
  }

  lemma ReachStep(l: Link, m: Move, k: Link, ms: seq<Move>, l1: Link)
    requires PeerOk(l.a) && PeerOk(l.b) && Advance(l, m) == Some(k) && Reaches(k, ms, l1)
    ensures Reaches(l, [m] + ms, l1)
  {
    hide Advance, PeerOk;
    assert ([m] + ms)[1..] == ms;
  }

  /** Both sides insist: each has thrown away the ENQ of the other and waits for EOT. */
  lemma BothInsist(allA: seq<Block>, allB: seq<Block>) returns (ms: seq<Move>, l: Link)
    requires allA != [] && allB != [] && Messages(allA) && Messages(allB)
    ensures Reaches(Begin(true, true, allA, allB), ms, l) && NoMove(l) && !Delivered(l, allA, allB)
  {
    hide Reaches;
    var l0 := Begin(true, true, allA, allB);
    var a, b := l0.a.(phase := AwaitEot), l0.b.(phase := AwaitEot);
    var l1 := Link(a, l0.b, [ENQ], []);
    var l2 := Link(a, b, [ENQ], [ENQ]);
    var l3 := Link(a, b, [ENQ], []);
    l := Link(a, b, [], []);
    var none: seq<byte> := [];
    assert none + none == none && [] + [ENQ] == [ENQ] && [ENQ] + [] == [ENQ] && [ENQ][1..] == [];
    assert Reaches(l, [], l) by { ReachesSelf(l); }
    ReachStep(l3, Move(false, false), l, [], l);
    ReachStep(l2, Move(true, false), l3, [Move(false, false)] + [], l);
    ReachStep(l1, Move(false, true), l2, [Move(true, false)] + ([Move(false, false)] + []), l);
    ReachStep(l0, Move(true, true), l1, [Move(false, true)] + ([Move(true, false)] + ([Move(false, false)] + [])), l);
    ms := [Move(true, true)] + ([Move(false, true)] + ([Move(true, false)] + ([Move(false, false)] + [])));
  }

  lemma ReachesSelf(l: Link)
    ensures Reaches(l, [], l)
  {
  }

  /** Both sides yield: each takes the EOT of the other for the size of a block. */
  lemma BothYield(allA: seq<Block>, allB: seq<Block>) returns (ms: seq<Move>, l: Link)
    requires allA != [] && allB != [] && Messages(allA) && Messages(allB)
    ensures Reaches(Begin(false, false, allA, allB), ms, l) && NoMove(l) && !Delivered(l, allA, allB)
  {
    hide Reaches;
    var l0 := Begin(false, false, allA, allB);
    var a, b := l0.a.(phase := AwaitEot), l0.b.(phase := AwaitEot);
    var ya, yb := a.(phase := MustEot, yielded := true), b.(phase := MustEot, yielded := true);
    var sa, sb := ya.(phase := AwaitSize), yb.(phase := AwaitSize);
    var l1 := Link(a, l0.b, [ENQ], []);
    var l2 := Link(a, b, [ENQ], [ENQ]);
    var l3 := Link(ya, b, [ENQ], []);
    var l4 := Link(ya, yb, [], []);
    var l5 := Link(sa, yb, [EOT], []);
    var l6 := Link(sa, sb, [EOT], [EOT]);
    var l7 := Link(sa.(phase := Junk), sb, [EOT], []);
    l := Link(sa.(phase := Junk), sb.(phase := Junk), [], []);
    var none: seq<byte> := [];
    assert none + none == none && [] + [ENQ] == [ENQ] && [ENQ] + [] == [ENQ] && [] + [EOT] == [EOT]
           && [EOT] + [] == [EOT] && [ENQ][1..] == [] && [EOT][1..] == [];
    assert Reaches(l, [], l) by { ReachesSelf(l); }
    var go := [Move(false, false)] + [];
    ReachStep(l7, Move(false, false), l, [], l);
    ReachStep(l6, Move(true, false), l7, go, l);
    go := [Move(true, false)] + go;
    ReachStep(l5, Move(false, false), l6, go, l);
    go := [Move(false, false)] + go;
    ReachStep(l4, Move(true, false), l5, go, l);
    go := [Move(true, false)] + go;
    ReachStep(l3, Move(false, false), l4, go, l);
    go := [Move(false, false)] + go;
    ReachStep(l2, Move(true, false), l3, go, l);
    go := [Move(true, false)] + go;
    ReachStep(l1, Move(false, true), l2, go, l);
    go := [Move(false, true)] + go;
    ReachStep(l0, Move(true, true), l1, go, l);
    ms := [Move(true, true)] + go;
  }

  /** Two sides that both have something to send always get it through exactly when one of them, and
      not the other, has `rbit`. */
  lemma OneInsists(ra: bool, rb: bool, allA: seq<Block>, allB: seq<Block>)
    requires allA != [] && allB != [] && Messages(allA) && Messages(allB)
    ensures AlwaysDelivers(ra, rb, allA, allB) <==> ra != rb
  {
    hide Reaches, NoMove;
    if ra != rb {
      forall ms: seq<Move>, l: Link | Reaches(Begin(ra, rb, allA, allB), ms, l) && NoMove(l)
        ensures Delivered(l, allA, allB)
      {
        RunsDeliver(ra, rb, allA, allB, ms, l);
      }
    } else if ra {
      var ms, l := BothInsist(allA, allB);
    } else {
      var ms, l := BothYield(allA, allB);
    }
  }
}
