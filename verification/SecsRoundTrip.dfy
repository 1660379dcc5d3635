/** Decoding the encoding of items gives the items back, in pre-order and each under its path. */
module SecsRoundTrip {
  import opened Bytes
  import opened Machine
  import opened SecsItems
  import opened SecsTree
  import opened SecsWalk
  import opened SecsCodes

  predicate Stands(b: seq<byte>, p: nat, s: seq<byte>) {
    p + |s| <= |b| && b[p..p + |s|] == s
  }

  lemma StandsSplit(b: seq<byte>, p: nat, s: seq<byte>, t: seq<byte>)
    requires Stands(b, p, s + t)
    ensures Stands(b, p, s) && Stands(b, p + |s|, t)
  {
    assert b[p..p + |s|] == b[p..p + |s + t|][..|s|] == s;
    assert b[p + |s|..p + |s| + |t|] == b[p..p + |s + t|][|s|..] == t;
  }

  // ---------------------------------------------------------------- the items in order

  function Preorder(s: seq<Node>, path: seq<nat>, i: nat): seq<Event>
    decreases s
  {
    if s == [] then [] else NodeEvents(s[0], path + [i + 1]) + Preorder(s[1..], path, i + 1)
  }

  function NodeEvents(n: Node, path: seq<nat>): seq<Event>
    requires path != []
    decreases n
  {
    match n
    case Leaf(f, bytes) => [Item(path, f, |bytes|, bytes)]
    case Branch(children) =>
      [Opened(path, |children|)] + (Preorder(children, path, 0) + if children == [] then [] else [Closed(|path| - 1)])
  }

  /** Lengths that three bytes hold, whole values, and the formats there are. */
  predicate Fits(n: Node)
    decreases n
  {
    match n
    case Leaf(f, bytes) => |bytes| < 0x1000000 && |bytes| % ValueSize(f) == 0 && Real(f)
    case Branch(children) => |children| < 0x1000000 && AllFit(children)
  }

  predicate AllFit(s: seq<Node>)
    decreases s
  {
    s == [] || (Fits(s[0]) && AllFit(s[1..]))
  }

  /** Every line has room, and every list a level. */
  predicate Roomy(room: Room, n: Node, path: seq<nat>)
    decreases n
  {
    room(path) && (n.Branch? ==> |path| < LEVELS && AllRoomy(room, n.children, path, 0))
  }

  predicate AllRoomy(room: Room, s: seq<Node>, path: seq<nat>, i: nat)
    decreases s
  {
    s == [] || (Roomy(room, s[0], path + [i + 1]) && AllRoomy(room, s[1..], path, i + 1))
  }

  // ---------------------------------------------------------------- reading a header

  /** The format byte names the format and the number of length bytes, and these are the length. */
  lemma HeaderParts(b: seq<byte>, p: nat, code: byte, n: nat)
    requires code % 4 == 0 && n < 0x1000000 && Stands(b, p, Header(code, n))
    ensures var k := |SizeBytes(n)|;
            && 1 <= k <= 3 && p + 1 + k <= |b| && |Header(code, n)| == 1 + k
            && b[p] == code + k && b[p + 1..p + 1 + k] == SizeBytes(n) && Number(SizeBytes(n)) == n
  {
    hide SizeBytes, Number;
    var size := SizeBytes(n);
    SizeBytesExact(n);
    StandsSplit(b, p, [code + |size|], size);
    assert b[p] == b[p..p + 1][0];
  }

  lemma FormatByte(code: byte, k: nat, c: byte)
    requires code % 4 == 0 && 1 <= k <= 3 && c == code + k
    ensures LengthBytes(c) == k && c - c % 4 == code
  {
  }

  lemma HeaderRead(b: seq<byte>, room: Room, w: Walk, code: byte, n: nat)
    requires w.Valid(b) && code % 4 == 0 && n < 0x1000000 && Stands(b, w.p, Header(code, n))
    ensures w.p < |b| && w.p < w.p + |Header(code, n)| <= |b|
    ensures ReadTurn(b, room, w) == ItemTurn(b, room, w, code, n, w.p + |Header(code, n)|)
  {
    hide ItemTurn, SizeBytes, Number, Stands, Header, LengthBytes;
    HeaderParts(b, w.p, code, n);
    FormatByte(code, |SizeBytes(n)|, b[w.p]);
  }

  // ---------------------------------------------------------------- levels

  /** Below the level of `w` nothing has changed. */
  predicate Above(w: Walk, v: Walk) {
    && v.l == w.l < |w.e| == |v.e| && w.l < |w.ie| == |v.ie|
    && v.e[..w.l] == w.e[..w.l] && v.ie[..w.l] == w.ie[..w.l]
  }

  /** Items left in the innermost list: at least `n`, or the outermost counter about to wrap. */
  predicate Enough(c: nat, n: nat) {
    c < TWO_32 && (n <= c || (c == 0 && n < TWO_32))
  }

  function Less(c: nat, n: nat): nat {
    (c - n) % TWO_32
  }

  /** `v` stands behind `count` more items than `w`, their events reported. */
  predicate Behind(w: Walk, v: Walk, p: nat, count: nat, events: seq<Event>) {
    && Above(w, v) && v.closing && v.p == p && v.out == w.out + events
    && v.ie[w.l] == w.ie[w.l] + count && v.e[w.l] == Less(w.e[w.l], count)
  }

  lemma GoesThen(b: seq<byte>, room: Room, u: Walk, v: Walk, w: Walk)
    requires Goes(b, room, u, v) && Goes(b, room, v, w)
    ensures Goes(b, room, u, w)
  {
    hide Walked;
  }

  lemma Reopens(b: seq<byte>, room: Room, w: Walk)
    requires w.Valid(b) && w.closing && w.e[w.l] != 0
    ensures Goes(b, room, w, w.(closing := false))
  {
  }

  lemma Closes(b: seq<byte>, room: Room, w: Walk)
    requires w.Valid(b) && w.closing && w.e[w.l] == 0 && w.l > 0
    ensures Goes(b, room, w, w.(l := w.l - 1, out := w.out + [Closed(w.l - 1)]))
  {
  }

  lemma Reads(b: seq<byte>, room: Room, w: Walk, v: Walk)
    requires w.Valid(b) && !w.closing && w.p < |b| && ReadTurn(b, room, w) == Decoded(v)
    ensures Goes(b, room, w, v)
  {
    hide ReadTurn;
  }

  // ---------------------------------------------------------------- the induction

  lemma LeafPasses(b: seq<byte>, room: Room, w: Walk, f: Format, bytes: seq<byte>, path: seq<nat>) returns (v: Walk)
    requires w.Valid(b) && !w.closing && Stands(b, w.p, Encoded(Leaf(f, bytes)))
    requires w.ie[w.l] + 1 < TWO_32 && path == w.ie[..w.l] + [w.ie[w.l] + 1] && w.e[w.l] < TWO_32
    requires Fits(Leaf(f, bytes)) && Roomy(room, Leaf(f, bytes), path)
    ensures Goes(b, room, w, v)
    ensures Behind(w, v, w.p + |Encoded(Leaf(f, bytes))|, 1, NodeEvents(Leaf(f, bytes), path))
  {
    hide Walked, Goes, Header, Code, KnownOf, Down, Less;
    CodeKnown(f);
    DownIsLess(w.e[w.l]);
    var h := Header(Code(f), |bytes|);
    StandsSplit(b, w.p, h, bytes);
    HeaderRead(b, room, w, Code(f), |bytes|);
    var ie := w.ie[w.l := w.ie[w.l] + 1];
    assert ie[..w.l + 1] == path;
    WholeValues(|bytes|, ValueSize(f));
    v := Walk(w.p + |h| + |bytes|, w.l, w.e[w.l := Down(w.e[w.l])], ie, true, w.out + [Item(path, f, |bytes|, bytes)]);
    Reads(b, room, w, v);
  }

  lemma WholeValues(n: nat, k: nat)
    requires k > 0 && n % k == 0
    ensures n / k * k == n
  {
  }

  lemma {:induction false} NodePasses(b: seq<byte>, room: Room, w: Walk, n: Node, path: seq<nat>) returns (v: Walk)
    requires w.Valid(b) && !w.closing && Stands(b, w.p, Encoded(n))
    requires w.ie[w.l] + 1 < TWO_32 && path == w.ie[..w.l] + [w.ie[w.l] + 1] && w.e[w.l] < TWO_32
    requires Fits(n) && Roomy(room, n, path)
    ensures Goes(b, room, w, v) && Behind(w, v, w.p + |Encoded(n)|, 1, NodeEvents(n, path))
    decreases n
  {
    hide Walked, Goes, Header, ItemTurn, ReadTurn, Behind;
    match n {
      case Leaf(f, bytes) =>
        v := LeafPasses(b, room, w, f, bytes, path);
      case Branch(children) =>
        StandsSplit(b, w.p, Header(LIST, |children|), EncodedAll(children));
        var u := ListOpens(b, room, w, children, path);
        if children == [] {
          v := u;
          EmptyList(w, v, n, path);
        } else {
          Reopens(b, room, u);
          var u1 := u.(closing := false);
          GoesThen(b, room, w, u, u1);
          assert u1.ie[..u1.l] == path;
          var u2 := NodesPass(b, room, u1, children, path, 0);
          GoesThen(b, room, w, u1, u2);
          assert Above(u1, u2) && u2.closing && u2.e[u2.l] == 0 && u2.Valid(b) by {
            PassedParts(b, room, u1, u2, children, path);
          }
          Closes(b, room, u2);
          v := u2.(l := u2.l - 1, out := u2.out + [Closed(u2.l - 1)]);
          GoesThen(b, room, w, u2, v);
          ListBehind(w, u, u1, u2, v, children, path, w.p + |Encoded(n)|);
        }
    }
  }

  lemma PassedParts(b: seq<byte>, room: Room, u1: Walk, u2: Walk, children: seq<Node>, path: seq<nat>)
    requires Behind(u1, u2, u1.p + |EncodedAll(children)|, |children|, Preorder(children, path, 0))
             && Goes(b, room, u1, u2)
    requires u1.e[u1.l] == |children| < TWO_32
    ensures Above(u1, u2) && u2.closing && u2.e[u2.l] == 0 && u2.Valid(b)
  {
    hide Walked, EncodedAll, Preorder;
  }

  /** A list's head: a level more, unless the list is empty. */
  lemma ListOpens(b: seq<byte>, room: Room, w: Walk, children: seq<Node>, path: seq<nat>) returns (u: Walk)
    requires w.Valid(b) && !w.closing && Stands(b, w.p, Header(LIST, |children|)) && |children| < 0x1000000
    requires w.ie[w.l] + 1 < TWO_32 && path == w.ie[..w.l] + [w.ie[w.l] + 1] && w.e[w.l] < TWO_32
    requires room(path) && |path| < LEVELS
    ensures u.Valid(b) && w.l + 1 < |w.e| && Goes(b, room, w, u)
    ensures u.closing && u.p == w.p + |Header(LIST, |children|)| && u.out == w.out + [Opened(path, |children|)]
    ensures u.l == if children == [] then w.l else w.l + 1
    ensures u.e[w.l + 1] == |children| && u.ie[w.l + 1] == 0
    ensures u.e[..w.l] == w.e[..w.l] && u.ie[..w.l] == w.ie[..w.l] && u.ie[w.l] == w.ie[w.l] + 1
            && u.e[w.l] == Down(w.e[w.l])
    ensures u.ie[..w.l + 1] == path
  {
    hide Walked, Goes, Header;
    HeaderRead(b, room, w, LIST, |children|);
    var ie := w.ie[w.l := w.ie[w.l] + 1];
    assert ie[..w.l + 1] == path;
    u := Walk(w.p + |Header(LIST, |children|)|, if children != [] then w.l + 1 else w.l,
              w.e[w.l := Down(w.e[w.l])][w.l + 1 := |children|], ie[w.l + 1 := 0], true,
                w.out + [Opened(path, |children|)]);
    Reads(b, room, w, u);
  }

  lemma EmptyList(w: Walk, v: Walk, n: Node, path: seq<nat>)
    requires path != [] && n == Branch([]) && v.closing && v.p == w.p + |Header(LIST, 0)| && v.l == w.l
             && w.l + 1 < |w.e| == |v.e| == |w.ie| == |v.ie|
    requires v.e[..w.l] == w.e[..w.l] && v.ie[..w.l] == w.ie[..w.l] && v.ie[w.l] == w.ie[w.l] + 1
             && v.e[w.l] == Down(w.e[w.l])
    requires v.out == w.out + [Opened(path, 0)] && w.e[w.l] < TWO_32
    ensures Behind(w, v, w.p + |Encoded(n)|, 1, NodeEvents(n, path))
  {
    assert Encoded(n) == Header(LIST, 0) + [];
    assert NodeEvents(n, path) == [Opened(path, 0)];
  }

  lemma ListBehind(w: Walk, u: Walk, u1: Walk, u2: Walk, v: Walk, children: seq<Node>, path: seq<nat>, p: nat)
    requires children != [] && w.l + 1 < |w.e| == |u.e| == |w.ie| == |u.ie| && w.e[w.l] < TWO_32
    requires u.l == w.l + 1 && u.out == w.out + [Opened(path, |children|)]
    requires u.e[..w.l] == w.e[..w.l] && u.ie[..w.l] == w.ie[..w.l] && u.ie[w.l] == w.ie[w.l] + 1
             && u.e[w.l] == Down(w.e[w.l])
    requires u1 == u.(closing := false) && |path| == w.l + 1
    requires Behind(u1, u2, p, |children|, Preorder(children, path, 0))
    requires v == u2.(l := u2.l - 1, out := u2.out + [Closed(u2.l - 1)])
    ensures Behind(w, v, p, 1, NodeEvents(Branch(children), path))
  {
    hide Preorder, NodeEvents, Down, Less;
    DownIsLess(w.e[w.l]);
    Shorter(u2.e, u.e, w.l);
    Shorter(u2.ie, u.ie, w.l);
    OutBehind(w, u2, v, children, path);
  }

  lemma DownIsLess(c: nat)
    requires c < TWO_32
    ensures Down(c) == Less(c, 1)
  {
  }

  lemma Shorter(a: seq<nat>, b: seq<nat>, k: nat)
    requires k < |a| && k < |b| && a[..k + 1] == b[..k + 1]
    ensures a[..k] == b[..k] && a[k] == b[k]
  {
    assert a[..k] == a[..k + 1][..k] == b[..k];
    assert a[k] == a[..k + 1][k] == b[k];
  }

  lemma OutBehind(w: Walk, u2: Walk, v: Walk, children: seq<Node>, path: seq<nat>)
    requires children != [] && |path| == u2.l > 0
    requires u2.out == w.out + [Opened(path, |children|)] + Preorder(children, path, 0)
    requires v.out == u2.out + [Closed(u2.l - 1)]
    ensures v.out == w.out + NodeEvents(Branch(children), path)
  {
    hide Preorder;
  }

  lemma {:induction false} NodesPass(b: seq<byte>, room: Room, w: Walk, s: seq<Node>, path: seq<nat>, i: nat)
    returns (v: Walk)
    requires s != [] && w.Valid(b) && !w.closing && Stands(b, w.p, EncodedAll(s))
    requires path == w.ie[..w.l] && w.ie[w.l] == i && i + |s| < TWO_32 && Enough(w.e[w.l], |s|)
    requires AllFit(s) && AllRoomy(room, s, path, i)
    ensures Goes(b, room, w, v) && Behind(w, v, w.p + |EncodedAll(s)|, |s|, Preorder(s, path, i))
    decreases s
  {
    hide Walked, Goes, Encoded, NodeEvents, Fits, Roomy;
    StandsSplit(b, w.p, Encoded(s[0]), EncodedAll(s[1..]));
    v := NodePasses(b, room, w, s[0], path + [i + 1]);
    if |s| == 1 {
      assert EncodedAll(s[1..]) == [] && Preorder(s[1..], path, i + 1) == [];
      assert EncodedAll(s) == Encoded(s[0]) && Preorder(s, path, i) == NodeEvents(s[0], path + [i + 1]);
    } else {
      var u := v;
      assert u.Valid(b) by { GoesValid(b, room, w, u); }
      Reopens(b, room, u);
      var u1 := u.(closing := false);
      GoesThen(b, room, w, u, u1);
      v := NodesPass(b, room, u1, s[1..], path, i + 1);
      GoesThen(b, room, w, u1, v);
      NodesJoin(w, u1, v, s, path, i);
    }
  }

  lemma GoesValid(b: seq<byte>, room: Room, w: Walk, v: Walk)
    requires Goes(b, room, w, v)
    ensures v.Valid(b)
  {
    hide Walked;
  }

  lemma NodesJoin(w: Walk, u: Walk, v: Walk, s: seq<Node>, path: seq<nat>, i: nat)
    requires |s| > 1 && Behind(w, u.(closing := true), w.p + |Encoded(s[0])|, 1, NodeEvents(s[0], path + [i + 1]))
    requires Behind(u, v, u.p + |EncodedAll(s[1..])|, |s| - 1, Preorder(s[1..], path, i + 1))
    requires Enough(w.e[w.l], |s|)
    ensures Behind(w, v, w.p + |EncodedAll(s)|, |s|, Preorder(s, path, i))
  {
    hide Encoded, NodeEvents;
    assert v.out == w.out + Preorder(s, path, i);
  }

  // ---------------------------------------------------------------- the theorem

  lemma {:induction false} EncodedSize(s: seq<Node>)
    ensures |EncodedAll(s)| >= 2 * |s|
    decreases |s|
  {
    if s != [] {
      HeaderSize(s[0]);
      EncodedSize(s[1..]);
    }
  }

  lemma HeaderSize(n: Node)
    ensures |Encoded(n)| >= 2
  {
  }

  /** A message whose length fits 32 bits is decoded to its items, and the walk ends at level 0: the
      outermost counter, which wraps at once, does not come back to zero. */
  lemma DecodesEncoding(room: Room, s: seq<Node>)
    requires AllFit(s) && AllRoomy(room, s, [], 0) && |EncodedAll(s)| < TWO_32
    ensures var r := Walked(EncodedAll(s), room, Start());
            r.Decoded? && r.w.out == Preorder(s, [], 0) && r.w.l == 0 && r.w.p == |EncodedAll(s)|
  {
    hide AllFit, AllRoomy, Walked;
    var b := EncodedAll(s);
    var w := Start();
    if s == [] {
      assert b == [] && Walked(b, room, w) == Decoded(w) by { AtEnd(b, room, w); }
    } else {
      EncodedSize(s);
      assert b[0..0 + |b|] == b;
      var v := NodesPass(b, room, w, s, [], 0);
      assert v.e[0] == TWO_32 - |s|;
      GoesValid(b, room, w, v);
      Reopens(b, room, v);
      AtEnd(b, room, v.(closing := false));
      assert [] + Preorder(s, [], 0) == Preorder(s, [], 0);
    }
  }

  // ---------------------------------------------------------------- an unknown format

  lemma TurnUnknown(b: seq<byte>, room: Room, w: Walk, code: int, size: nat, q: nat)
    requires w.Valid(b) && w.p < q <= |b| && KnownOf(code) == NoKnown && room(w.ie[w.l := Up(w.ie[w.l])][..w.l + 1])
    ensures var r := ItemTurn(b, room, w, code, size, q); r.Unknown? && r.w.out == w.out
  {
    hide KnownOf, Up, Down;
  }

  lemma ReadsUnknown(b: seq<byte>, room: Room, w: Walk)
    requires w.Valid(b) && !w.closing && w.p < |b| && KnownOf(b[w.p] - b[w.p] % 4) == NoKnown
    requires w.p + 1 + LengthBytes(b[w.p]) <= |b| && room(w.ie[w.l := Up(w.ie[w.l])][..w.l + 1])
    ensures var r := Walked(b, room, w); r.Unknown? && r.w.out == w.out
  {
    hide KnownOf, LengthBytes, Size, Up, ItemTurn, Walked, ReadTurn;
    ReadIsTurn(b, room, w);
    var n, c := LengthBytes(b[w.p]), b[w.p];
    var q := w.p + 1 + n;
    var code, size := c - c % 4, Size(b, w.p + 1, n);
    assert ReadTurn(b, room, w) == ItemTurn(b, room, w, code, size, q);
    TurnUnknown(b, room, w, code, size, q);
    EndsUnknown(b, room, w);
  }

  lemma ReadIsTurn(b: seq<byte>, room: Room, w: Walk)
    requires w.Valid(b) && w.p < |b| && w.p + 1 + LengthBytes(b[w.p]) <= |b|
    ensures var n := LengthBytes(b[w.p]);
            ReadTurn(b, room, w) == ItemTurn(b, room, w, b[w.p] - b[w.p] % 4, Size(b, w.p + 1, n), w.p + 1 + n)
  {
    hide LengthBytes, Size, ItemTurn;
  }

  lemma EndsUnknown(b: seq<byte>, room: Room, w: Walk)
    requires w.Valid(b) && !w.closing && w.p < |b| && ReadTurn(b, room, w).Unknown?
    ensures Walked(b, room, w) == ReadTurn(b, room, w)
  {
    hide ReadTurn;
  }

  /** A format no table has ends the walk; the items before it have been reported. */
  lemma StopsAtUnknown(room: Room, s: seq<Node>, c: byte, more: seq<byte>)
    requires AllFit(s) && AllRoomy(room, s, [], 0) && |EncodedAll(s)| < TWO_32 - 2 && room([|s| + 1])
    requires KnownOf(c - c % 4) == NoKnown && LengthBytes(c) <= |more|
    ensures var r := Walked(EncodedAll(s) + ([c] + more), room, Start()); r.Unknown? && r.w.out == Preorder(s, [], 0)
  {
    hide AllFit, AllRoomy, Walked, KnownOf, LengthBytes, EncodedAll, Preorder;
    var b, w := EncodedAll(s) + ([c] + more), Start();
    if s == [] {
      NoneEncoded();
      assert b == [c] + more;
      UnknownHere(b, room, w, c, more, 0);
    } else {
      var v := ItemsBefore(room, s, c, more);
      UnknownHere(b, room, v, c, more, |s|);
    }
  }

  lemma NoneEncoded()
    ensures EncodedAll([]) == [] && Preorder([], [], 0) == []
  {
  }

  lemma UnknownHere(b: seq<byte>, room: Room, w: Walk, c: byte, more: seq<byte>, n: nat)
    requires w.Valid(b) && !w.closing && w.l == 0 && w.ie[0] == n && n + 1 < TWO_32 && room([n + 1])
    requires b[w.p..] == [c] + more && KnownOf(c - c % 4) == NoKnown && LengthBytes(c) <= |more|
    ensures var r := Walked(b, room, w); r.Unknown? && r.w.out == w.out
  {
    hide Walked, KnownOf, LengthBytes;
    assert b[w.p] == b[w.p..][0] && |b| == w.p + 1 + |more|;
    assert w.ie[0 := Up(n)][..1] == [n + 1];
    ReadsUnknown(b, room, w);
  }

  /** Where the walk stands behind the items. */
  lemma ItemsBefore(room: Room, s: seq<Node>, c: byte, more: seq<byte>) returns (u: Walk)
    requires s != [] && AllFit(s) && AllRoomy(room, s, [], 0) && |EncodedAll(s)| < TWO_32 - 2
    ensures var b := EncodedAll(s) + ([c] + more);
            && u.Valid(b) && !u.closing && u.l == 0 && u.ie[0] == |s| && |s| + 1 < TWO_32 && b[u.p..] == [c] + more
            && Walked(b, room, Start()) == Walked(b, room, u) && u.out == Preorder(s, [], 0)
  {
    hide AllFit, AllRoomy, Walked, EncodedAll, Preorder;
    var b, w := EncodedAll(s) + ([c] + more), Start();
    EncodedSize(s);
    assert b[0..0 + |EncodedAll(s)|] == EncodedAll(s);
    var v := NodesPass(b, room, w, s, [], 0);
    assert v.e[0] == TWO_32 - |s|;
    GoesValid(b, room, w, v);
    Reopens(b, room, v);
    u := v.(closing := false);
    assert [] + Preorder(s, [], 0) == Preorder(s, [], 0);
    assert b[|EncodedAll(s)|..] == [c] + more;
  }
}
