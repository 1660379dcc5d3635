/** The first decoder in its imperative form: `secs_decode` (source/secs_decode_sml.c). Its walk, with
    the position and the counter arrays, is a class of its own, which the log printer uses too. */
module SecsDecoders {
  import opened Bytes
  import opened Machine
  import opened Numerals
  import opened SecsItems
  import opened SecsWalk
  import opened SecsTree
  import opened SecsRoundTrip
  import opened SecsText

  /** An item read: a list's head, an item with its whole values, or neither. */
  datatype Read1 =
    | GotList(path: seq<nat>, size: nat)
    | GotItem(path: seq<nat>, f: Format, size: nat, bytes: seq<byte>)
    | GotUnknown
    | Beyond

  // A length of one, two and three bytes.

  lemma OneSize(b: seq<byte>, p: nat)
    requires p + 1 <= |b|
    ensures Size(b, p, 1) == b[p]
  {
    hide Number;
    OneByte(b[p..p + 1]);
  }

  lemma TwoSize(b: seq<byte>, p: nat)
    requires p + 2 <= |b|
    ensures Size(b, p, 2) == (b[p] as int) * 256 + b[p + 1]
  {
    hide Number;
    TwoBytes(b[p..p + 2]);
  }

  lemma ThreeSize(b: seq<byte>, p: nat)
    requires p + 3 <= |b|
    ensures Size(b, p, 3) == (b[p] as int) * 65536 + (b[p + 1] as int) * 256 + b[p + 2]
  {
    hide Number;
    ThreeBytes(b[p..p + 3]);
  }

  class Walker {
    const b: seq<byte>
    const room: Room
    var p: nat
    var l: nat
    const e: array<nat>
    const ie: array<nat>

    ghost predicate Valid()
      reads this, e, ie
    {
      p <= |b| && e != ie && e.Length == ie.Length == LEVELS && l < LEVELS
    }

    ghost function State(closing: bool, out: seq<Event>): Walk
      reads this, e, ie
    {
      Walk(p, l, e[..], ie[..], closing, out)
    }

    constructor (b: seq<byte>, room: Room)
      ensures Valid() && fresh(e) && fresh(ie) && this.b == b && this.room == room
      ensures State(false, []) == Start()
    {
      this.b, this.room, p, l := b, room, 0, 0;
      e := new nat[LEVELS](_ => 0);
      ie := new nat[LEVELS](_ => 0);
      new;
      assert e[..] == Start().e && ie[..] == Start().ie;
    }

    /** The length bytes behind the format byte at `p`. */
    method Length() returns (size: nat, ok: bool)
      requires Valid() && p < |b|
      modifies this`p
      ensures Valid()
      ensures var n := LengthBytes(b[old(p)]);
              if old(p) + 1 + n > |b| then !ok else ok && p == old(p) + 1 + n && size == Size(b, old(p) + 1, n)
    {
      hide Size;
      var n := b[p] % 4;
      p, size, ok := p + 1, 0, true;
      if n == 1 {
        if p + 1 > |b| {
          return 0, false;
        }
        OneSize(b, p);
        size := b[p];
        p := p + 1;
      } else if n == 2 {
        if p + 2 > |b| {
          return 0, false;
        }
        TwoSize(b, p);
        size := (b[p] as int) * 256 + b[p + 1];
        p := p + 2;
      } else {
        if p + 3 > |b| {
          return 0, false;
        }
        ThreeSize(b, p);
        size := (b[p] as int) * 65536 + (b[p + 1] as int) * 256 + b[p + 2];
        p := p + 3;
      }
    }

    /** One item fewer in the list at the current level. */
    method CountItem()
      requires Valid()
      modifies e
      ensures e[..] == old(e[..])[l := Down(old(e[..])[l])]
    {
      e[l] := Down(e[l]);
    }

    /** The head of a list: the next level, unless it is empty. */
    method EnterList(size: nat)
      requires Valid() && l + 1 < LEVELS
      modifies this`l, e, ie
      ensures Valid() && l == if size > 0 then old(l) + 1 else old(l)
      ensures e[..] == old(e[..])[old(l) + 1 := size] && ie[..] == old(ie[..])[old(l) + 1 := 0]
    {
      l := l + 1;
      e[l] := size;
      ie[l] := 0;
      if size == 0 {
        l := l - 1;
      }
    }

    /** An item from its format byte on: source/secs_decode_sml.c:81-184. */
    method Next() returns (r: Read1)
      requires Valid() && p < |b|
      modifies this, e, ie
      ensures !r.Beyond? ==> Valid() && p > old(p)
      ensures var t := ReadTurn(b, room, old(State(false, [])));
              match r
              case Beyond => t.Undefined?
              case GotUnknown => t == Unknown(State(true, []))
              case GotList(path, n) => t == Decoded(State(true, [Opened(path, n)]))
              case GotItem(path, f, size, bytes) => t == Decoded(State(true, [Item(path, f, size, bytes)]))
    {
      hide ItemTurn, Size, Up, LengthBytes;
      ghost var w := State(false, []);
      var code := b[p] - b[p] % 4;
      var size, ok := Length();
      if !ok {
        return Beyond;
      }
      ghost var q := p;
      assert ReadTurn(b, room, w) == ItemTurn(b, room, w, code, size, q);
      ie[l] := Up(ie[l]);
      assert ie[..] == w.ie[w.l := Up(w.ie[w.l])];
      r := NextItem(w, code, size);
    }

    /** The part of a turn behind the length, the item already counted in its path. */
    method NextItem(ghost w: Walk, code: int, size: nat) returns (r: Read1)
      requires Valid() && w.Valid(b) && w.p < p && w.l == l && w.e == e[..] && ie[..] == w.ie[l := Up(w.ie[l])]
      modifies this, e, ie
      ensures !r.Beyond? ==> Valid() && p >= old(p)
      ensures w.out == [] ==>
              var t := ItemTurn(b, room, w, code, size, old(p));
              match r
              case Beyond => t.Undefined?
              case GotUnknown => t == Unknown(State(true, []))
              case GotList(path, n) => t == Decoded(State(true, [Opened(path, n)]))
              case GotItem(path, f, size, bytes) => t == Decoded(State(true, [Item(path, f, size, bytes)]))
    {
      hide KnownOf, Down, Up;
      var path := ie[..l + 1];
      if !room(path) {
        return Beyond;
      }
      CountItem();
      match KnownOf(code) {
        case AList =>
          if l + 1 >= LEVELS {
            return Beyond;
          }
          EnterList(size);
          r := GotList(path, size);
        case AnItem(f) =>
          var n := size / ValueSize(f) * ValueSize(f);
          if p + n > |b| {
            return Beyond;
          }
          p := p + n;
          r := GotItem(path, f, size, b[p - n..p]);
        case NoKnown =>
          r := GotUnknown;
      }
    }

    /** The list at the current level is over. */
    method Close()
      requires Valid() && l > 0
      modifies this`l
      ensures Valid() && l == old(l) - 1
    {
      l := l - 1;
    }
  }

  // ---------------------------------------------------------------- the data of an item

  lemma Assoc<T>(a: seq<T>, b: seq<T>, c: seq<T>)
    ensures (a + b) + c == a + (b + c)
  {
  }

  lemma NextValue(g: FloatText, f: Format, s: seq<byte>, q: nat)
    requires q + ValueSize(f) <= |s|
    ensures var v, more := s[q..q + ValueSize(f)], s[q + ValueSize(f)..];
            && LogValues(g, f, s[q..]) == LogValue(g, f, v) + LogValues(g, f, more)
            && Values(g, f, s[q..]) == [ValueText(g, f, v)] + Values(g, f, more)
            && JoinedValues(g, f, s[q..]) == (JoinedValue(g, f, v) + " ") + JoinedValues(g, f, more)
  {
    hide ValueText, LogValue, JoinedValue;
    var n := ValueSize(f);
    assert s[q..][..n] == s[q..q + n] && s[q..][n..] == s[q + n..];
  }

  lemma IndexedStep(name: string, array_: bool, i: nat, v: string, more: seq<string>)
    ensures Indexed(name, array_, i, [v] + more)
         == [(if array_ then name + Bracketed(i + 1) else name, v)] + Indexed(name, array_, i + 1, more)
  {
    hide Bracketed;
    assert ([v] + more)[1..] == more;
  }

  /** The loop of `secs_decode` over the values of an item. */
  method ReportValues(g: FloatText, name: string, f: Format, array_: bool, s: seq<byte>)
    returns (text: string, vars: Vars, i: nat)
    ensures text == LogValues(g, f, s) && vars == Indexed(name, array_, 0, Values(g, f, s)) && i == |Values(g, f, s)|
  {
    hide ValueText, LogValue, Bracketed, Values, LogValues, Indexed;
    text, vars, i := "", [], 0;
    var q, n := 0, ValueSize(f);
    assert s[0..] == s;
    while q + n <= |s|
      invariant q <= |s|
      invariant text + LogValues(g, f, s[q..]) == LogValues(g, f, s)
      invariant vars + Indexed(name, array_, i, Values(g, f, s[q..])) == Indexed(name, array_, 0, Values(g, f, s))
      invariant i + |Values(g, f, s[q..])| == |Values(g, f, s)|
      decreases |s| - q
    {
      NextValue(g, f, s, q);
      IndexedStep(name, array_, i, ValueText(g, f, s[q..q + n]), Values(g, f, s[q + n..]));
      ghost var rest := s[q + n..];
      Assoc(text, LogValue(g, f, s[q..q + n]), LogValues(g, f, rest));
      Assoc(vars, [(if array_ then name + Bracketed(i + 1) else name, ValueText(g, f, s[q..q + n]))],
            Indexed(name, array_, i + 1, Values(g, f, rest)));
      text := text + LogValue(g, f, s[q..q + n]);
      vars := vars + [(if array_ then name + Bracketed(i + 1) else name, ValueText(g, f, s[q..q + n]))];
      i, q := i + 1, q + n;
    }
    NoValues(g, name, f, array_, i, s[q..]);
    assert text + "" == text && vars + [] == vars;
  }

  lemma NoValues(g: FloatText, name: string, f: Format, array_: bool, i: nat, s: seq<byte>)
    requires |s| < ValueSize(f)
    ensures LogValues(g, f, s) == "" && Values(g, f, s) == [] && JoinedValues(g, f, s) == ""
            && Indexed(name, array_, i, []) == []
  {
  }

  /** An item in `secs_decode`. */
  method ReportItem(g: FloatText, name: string, f: Format, size: nat, s: seq<byte>) returns (text: string, vars: Vars)
    ensures text == ItemText(g, f, s) && vars == ItemVars(g, name, f, s, size)
  {
    hide ValueText, LogValue, Bracketed, Indexed, Values, LogValues, IsArray, FormatText, HexTexts;
    if f == Ascii {
      return "<A \"" + CharsOf(s) + "\">\n", [(name, CharsOf(s))];
    }
    var array_ := IsArray(f, size);
    var values, more, n := ReportValues(g, name, f, array_, s);
    text := "<" + FormatText(f) + values + ">\n";
    vars := (if size == 0 && !f.Float? then [(name, "")] else []) + more;
    if array_ && f == Hex {
      var all := AllHex(s);
      vars := vars + [(name + "[]", all)];
    } else {
      assert vars + [] == vars;
    }
    if array_ {
      vars := vars + [(name, "ARRAY"), (name + "[0]", Decimal(n))];
    } else {
      assert vars + [] == vars;
    }
  }

  method AllHex(s: seq<byte>) returns (t: string)
    ensures t == HexTexts(s)
  {
    t := "";
    for i := 0 to |s|
      invariant t == HexTexts(s[..i])
    {
      assert s[..i + 1][..i] == s[..i];
      t := t + HexText(s[i]);
    }
    assert s[..|s|] == s;
  }

  // ---------------------------------------------------------------- the decoders

  /** What a decoder gives back: a return code, or a walk out of its bounds. */
  datatype Return = Returned(iret: nat) | OutOfBounds

  ghost predicate Reports(g: FloatText, prefix: string, b: seq<byte>, arrays: bool, ret: Return, log: string,
                          vars: Vars) {
    match Walked(b, DecoderRoom(prefix), Start())
    case Undefined => ret == OutOfBounds
    case Unknown(w) => ret == Returned(1) && log == Log(g, prefix, w.out) && vars == AllVars(g, prefix, w.out, arrays)
    case Decoded(w) => ret == Returned(0) && log == Log(g, prefix, w.out) && vars == AllVars(g, prefix, w.out, arrays)
  }

  /** What is reported so far, and the walk from here. */
  ghost predicate Sofar(g: FloatText, prefix: string, w: Walker, closing: bool, out: seq<Event>, log: string,
                        vars: Vars)
    reads w, w.e, w.ie
  {
    && w.Valid() && w.room == DecoderRoom(prefix)
    && Walked(w.b, w.room, Start()) == Walked(w.b, w.room, w.State(closing, out))
    && log == Log(g, prefix, out) && vars == AllVars(g, prefix, out, true)
  }

  lemma ReadTurnOut(b: seq<byte>, room: Room, w: Walk)
    requires w.Valid(b) && w.p < |b|
    ensures ReadTurn(b, room, w) == match ReadTurn(b, room, w.(out := []))
                                    case Undefined => Undefined
                                    case Unknown(v) => Unknown(v.(out := w.out))
                                    case Decoded(v) => Decoded(v.(out := w.out + v.out))
  {
    hide KnownOf, Size, LengthBytes;
  }

  /** The list closings behind an item. */
  method CloseLists(g: FloatText, prefix: string, w: Walker, ghost out0: seq<Event>, log0: string, ghost vars: Vars)
      returns (ok: bool, log: string, ghost out: seq<Event>)
    requires Sofar(g, prefix, w, true, out0, log0, vars)
    modifies w`l
    ensures if ok then Sofar(g, prefix, w, false, out, log, vars)
            else Walked(w.b, w.room, Start()) == Undefined
  {
    hide PathName, Log, AllVars;
    log, out := log0, out0;
    while w.e[w.l] == 0
      invariant Sofar(g, prefix, w, true, out, log, vars)
      decreases w.l
    {
      if w.l == 0 {
        return false, log, out;
      }
      w.Close();
      log := log + (Spaces(Column(w.l + 1)) + ">\n");
      LogThen(g, prefix, out, Closed(w.l));
      assert AllVars(g, prefix, out, true) + [] == AllVars(g, prefix, out, true);
      out := out + [Closed(w.l)];
    }
    ok := true;
  }

  /** The event a read stands for. */
  ghost function EventOf(r: Read1): Event
    requires r.GotList? || r.GotItem?
  {
    match r
    case GotList(path, n) => Opened(path, n)
    case GotItem(path, f, size, s) => Item(path, f, size, s)
  }

  method Report(g: FloatText, prefix: string, r: Read1) returns (text: string, vars: Vars)
    requires r.GotList? || r.GotItem?
    ensures text == Line(g, prefix, EventOf(r)) && vars == EventVars(g, prefix, EventOf(r), true)
  {
    hide PathName, ItemVars, ItemVar, ItemText, HeadText;
    match r {
      case GotList(path, n) =>
        text, vars := HeadText(n), [(PathName(prefix, path), Decimal(n))];
      case GotItem(path, f, size, s) =>
        text, vars := ReportItem(g, PathName(prefix, path), f, size, s);
    }
    text := Padded(prefix, r.path) + text;
  }

  /** source/secs_decode_sml.c */
  method SecsDecode(g: FloatText, prefix: string, b: seq<byte>) returns (ret: Return, log: string, vars: Vars)
    ensures Reports(g, prefix, b, true, ret, log, vars)
  {
    hide PathName, Log, AllVars, Walked, ReadTurn, Line, EventVars;
    var w := new Walker(b, DecoderRoom(prefix));
    ghost var out: seq<Event> := [];
    log, vars := "", [];
    NothingYet(g, prefix);
    while w.p < |b|
      invariant fresh(w) && fresh(w.e) && fresh(w.ie) && w.b == b && Sofar(g, prefix, w, false, out, log, vars)
      decreases |b| - w.p
    {
      Turned(b, w.room, w.State(false, out));
      var r := w.Next();
      if r.Beyond? {
        return OutOfBounds, log, vars;
      } else if r.GotUnknown? {
        return Returned(1), log, vars;
      }
      var text, more := Report(g, prefix, r);
      LogThen(g, prefix, out, EventOf(r));
      log, vars, out := log + text, vars + more, out + [EventOf(r)];
      var ok;
      ok, log, out := CloseLists(g, prefix, w, out, log, vars);
      if !ok {
        return OutOfBounds, log, vars;
      }
    }
    AtEnd(b, w.room, w.State(false, out));
    ret := Returned(0);
  }

  /** On the encoding of items both decoders return 0 and report the items in pre-order. */
  lemma ReportsPreorder(g: FloatText, prefix: string, s: seq<Node>, arrays: bool, ret: Return, log: string, vars: Vars)
    requires AllFit(s) && AllRoomy(DecoderRoom(prefix), s, [], 0) && |EncodedAll(s)| < TWO_32
    requires Reports(g, prefix, EncodedAll(s), arrays, ret, log, vars)
    ensures ret == Returned(0)
    ensures log == Log(g, prefix, Preorder(s, [], 0)) && vars == AllVars(g, prefix, Preorder(s, [], 0), arrays)
  {
    hide Walked, Log, AllVars, AllFit, AllRoomy;
    DecodesEncoding(DecoderRoom(prefix), s);
  }

  lemma NothingYet(g: FloatText, prefix: string)
    ensures Log(g, prefix, []) == "" && forall a :: AllVars(g, prefix, [], a) == []
  {
  }

  /** A turn of a walk that has reported something already. */
  lemma Turned(b: seq<byte>, room: Room, w: Walk)
    requires w.Valid(b) && !w.closing && w.p < |b|
    ensures Walked(b, room, w) == match ReadTurn(b, room, w.(out := []))
                                    case Undefined => Undefined
                                    case Unknown(v) => Unknown(v.(out := w.out))
                                    case Decoded(v) => Walked(b, room, v.(out := w.out + v.out))
  {
    hide ReadTurn;
    ReadTurnOut(b, room, w);
  }
}
