/** The walk over the bytes of a message that the decoders and the log printer share
    (source/secs_decode_sml.c:79-184 and 738-745): an item a turn, with the counters `e` (items left
    in each open list) and `ie` (items seen) on a stack of levels, and a turn for every list that is
    closed. */
module SecsWalk {
  import opened Bytes
  import opened Machine
  import opened SecsItems

  /** What a walk reports: an item with its length and the whole values in it, a list's head, or the
      end of a list at a level. */
  datatype Event =
    | Item(path: seq<nat>, f: Format, size: nat, bytes: seq<byte>)
    | Opened(path: seq<nat>, size: nat)
    | Closed(level: nat)

  /** Where the walk stands: before an item, or closing lists behind one. */
  datatype Walk = Walk(p: nat, l: nat, e: seq<nat>, ie: seq<nat>, closing: bool, out: seq<Event>) {
    predicate Valid(b: seq<byte>) {
      p <= |b| && l < |e| && |e| == |ie| == LEVELS
    }
  }

  const LEVELS := 100

  /** Undefined: the program would read behind the message, or use a level or a line it has no room
      for. */
  datatype Result = Decoded(w: Walk) | Unknown(w: Walk) | Undefined

  function Size(b: seq<byte>, p: nat, n: nat): nat
    requires p + n <= |b|
  {
    Number(b[p..p + n])
  }

  /** The length bytes announced by a format byte; none announced counts as three. */
  function LengthBytes(b: byte): (n: nat)
    ensures 1 <= n <= 3
  {
    if b % 4 == 1 then 1 else if b % 4 == 2 then 2 else 3
  }

  datatype Known = AList | AnItem(f: Format) | NoKnown

  function KnownOf(code: int): Known {
    if code == 0x00 then AList
    else if code == 0x40 then AnItem(Ascii)
    else if code == 0x24 then AnItem(Boolean)
    else if code == 0x20 then AnItem(Hex)
    else if code == 0xA4 then AnItem(Unsigned(W1))
    else if code == 0xA8 then AnItem(Unsigned(W2))
    else if code == 0xB0 then AnItem(Unsigned(W4))
    else if code == 0xA0 then AnItem(Unsigned(W8))
    else if code == 0x64 then AnItem(Signed(W1))
    else if code == 0x68 then AnItem(Signed(W2))
    else if code == 0x70 then AnItem(Signed(W4))
    else if code == 0x60 then AnItem(Signed(W8))
    else if code == 0x90 then AnItem(Float(W4))
    else if code == 0x80 then AnItem(Float(W8))
    else NoKnown
  }

  function Down(n: nat): nat { (n - 1 + TWO_32) % TWO_32 }
  function Up(n: nat): nat { (n + 1) % TWO_32 }

  /** The program has room for the line of an item at a path. */
  type Room = seq<nat> -> bool

  /** An item, from its format byte on; the length is `size` and the data start at `q`. */
  function ItemTurn(b: seq<byte>, room: Room, w: Walk, code: int, size: nat, q: nat): (r: Result)
    requires w.Valid(b) && w.p < q <= |b|
    ensures !r.Undefined? ==> r.w.Valid(b) && r.w.p > w.p && (r.Decoded? ==> r.w.closing)
  {
    var ie := w.ie[w.l := Up(w.ie[w.l])];
    var e := w.e[w.l := Down(w.e[w.l])];
    var path := ie[..w.l + 1];
    if !room(path) then Undefined
    else
      match KnownOf(code)
      case AList =>
        if w.l + 1 >= LEVELS then Undefined
        else Decoded(Walk(q, if size > 0 then w.l + 1 else w.l, e[w.l + 1 := size], ie[w.l + 1 := 0], true,
                          w.out + [Opened(path, size)]))
      case AnItem(f) =>
        var n := size / ValueSize(f) * ValueSize(f);
        if q + n > |b| then Undefined
        else Decoded(Walk(q + n, w.l, e, ie, true, w.out + [Item(path, f, size, b[q..q + n])]))
      case NoKnown => Unknown(Walk(q, w.l, e, ie, true, w.out))
  }

  function ReadTurn(b: seq<byte>, room: Room, w: Walk): (r: Result)
    requires w.Valid(b) && w.p < |b|
    ensures !r.Undefined? ==> r.w.Valid(b) && r.w.p > w.p && (r.Decoded? ==> r.w.closing)
  {
    var n := LengthBytes(b[w.p]);
    if w.p + 1 + n > |b| then Undefined
    else ItemTurn(b, room, w, b[w.p] - b[w.p] % 4, Size(b, w.p + 1, n), w.p + 1 + n)
  }

  function Walked(b: seq<byte>, room: Room, w: Walk): (r: Result)
    requires w.Valid(b)
    ensures !r.Undefined? ==> r.w.Valid(b)
    ensures r.Decoded? ==> r.w.p == |b| && !r.w.closing
    decreases |b| - w.p, if w.closing then w.l + 1 else 0
  {
    if w.closing then
      if w.e[w.l] != 0 then Walked(b, room, w.(closing := false))
      else if w.l == 0 then Undefined
      else Walked(b, room, w.(l := w.l - 1, out := w.out + [Closed(w.l - 1)]))
    else if w.p == |b| then Decoded(w)
    else
      match ReadTurn(b, room, w)
      case Undefined => Undefined
      case Unknown(v) => Unknown(v)
      case Decoded(v) => Walked(b, room, v)
  }

  /** Walks in which one goes on to the other. */
  ghost predicate Goes(b: seq<byte>, room: Room, w: Walk, v: Walk) {
    w.Valid(b) && v.Valid(b) && Walked(b, room, w) == Walked(b, room, v)
  }

  lemma AtEnd(b: seq<byte>, room: Room, w: Walk)
    requires w.Valid(b) && !w.closing && w.p == |b|
    ensures Walked(b, room, w) == Decoded(w)
  {
  }

  function Start(): (w: Walk)
    ensures forall b: seq<byte> :: w.Valid(b)
  {
    Walk(0, 0, seq(LEVELS, _ => 0), seq(LEVELS, _ => 0), false, [])
  }
}
