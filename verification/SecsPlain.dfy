/** The second decoder in its imperative form, `secs_decode_no_arrays`
    (source/secs_decode_sml_no_arrays.c), with a walk of its own over the bytes and the two counter
    arrays, and what it has in common with the first. */
module SecsPlainDecoders {
  import opened Bytes
  import opened Numerals
  import opened SecsItems
  import opened SecsWalk
  import opened SecsText
  import opened SecsDecoders
  import opened SecsJoin

  // ---------------------------------------------------------------- the data of an item

  /** The loop of `secs_decode_no_arrays` over the values of an item. */
  method JoinValues(g: FloatText, f: Format, s: seq<byte>) returns (text: string, value: string)
    ensures text == LogValues(g, f, s) && value == JoinedValues(g, f, s)
  {
    hide JoinedValue, LogValue, LogValues, JoinedValues;
    text, value := "", "";
    var q, n := 0, ValueSize(f);
    assert s[0..] == s;
    while q + n <= |s|
      invariant q <= |s|
      invariant text + LogValues(g, f, s[q..]) == LogValues(g, f, s)
      invariant value + JoinedValues(g, f, s[q..]) == JoinedValues(g, f, s)
      decreases |s| - q
    {
      NextValue(g, f, s, q);
      ghost var rest := s[q + n..];
      Assoc(text, LogValue(g, f, s[q..q + n]), LogValues(g, f, rest));
      Assoc(value, JoinedValue(g, f, s[q..q + n]) + " ", JoinedValues(g, f, rest));
      text := text + LogValue(g, f, s[q..q + n]);
      value := value + (JoinedValue(g, f, s[q..q + n]) + " ");
      q := q + n;
    }
    NoValues(g, "", f, false, 0, s[q..]);
    assert text + "" == text && value + "" == value;
  }

  /** An item in `secs_decode_no_arrays`. */
  method JoinItem(g: FloatText, name: string, f: Format, s: seq<byte>) returns (text: string, vars: Vars)
    ensures text == ItemText(g, f, s) && vars == ItemVar(g, name, f, s)
  {
    hide LogValues, JoinedValues, FormatText;
    if f == Ascii {
      return "<A \"" + CharsOf(s) + "\">\n", [(name, CharsOf(s))];
    }
    var values, value := JoinValues(g, f, s);
    return "<" + FormatText(f) + values + ">\n", [(name, value)];
  }

  // ---------------------------------------------------------------- the walk

  /** The length bytes behind the format byte: source/secs_decode_sml_no_arrays.c:86-110. */
  method TakeLength(b: seq<byte>, p0: nat) returns (p: nat, size: nat, ok: bool)
    requires p0 < |b|
    ensures var n := LengthBytes(b[p0]);
            if p0 + 1 + n > |b| then !ok else ok && p == p0 + 1 + n && size == Size(b, p0 + 1, n)
  {
    hide Size;
    var n := b[p0] % 4;
    p, size := p0 + 1, 0;
    if n == 1 {
      if p + 1 > |b| {
        return p, 0, false;
      }
      size := b[p];
      OneSize(b, p);
      p := p + 1;
    } else if n == 2 {
      if p + 2 > |b| {
        return p, 0, false;
      }
      size := (b[p] as int) * 256 + b[p + 1];
      TwoSize(b, p);
      p := p + 2;
    } else {
      if p + 3 > |b| {
        return p, 0, false;
      }
      size := (b[p] as int) * 65536 + (b[p + 1] as int) * 256 + b[p + 2];
      ThreeSize(b, p);
      p := p + 3;
    }
    ok := true;
  }

  /** The turn of a walk that has reported nothing yet is what was read. */
  ghost predicate TookTurn(t: Result, r: Read1, w: Walk)
  {
    match r
    case Beyond => t.Undefined?
    case GotUnknown => t == Unknown(w)
    case GotList(path, n) => t == Decoded(w.(out := [Opened(path, n)]))
    case GotItem(path, f, size, bytes) => t == Decoded(w.(out := [Item(path, f, size, bytes)]))
  }

  /** The level, the counters and the data behind the length: source/secs_decode_sml_no_arrays.c:115-476. */
  method TakeItem(b: seq<byte>, room: Room, p0: nat, l0: nat, e: array<nat>, ie: array<nat>, code: int, size: nat,
                  ghost w: Walk) returns (p: nat, l: nat, r: Read1)
    requires w.Valid(b) && w.p < p0 <= |b| && w.l == l0 && w.out == [] && e != ie
    requires e[..] == w.e && ie[..] == w.ie
    modifies e, ie
    ensures !r.Beyond? ==> p0 <= p <= |b| && l < LEVELS
    ensures TookTurn(ItemTurn(b, room, w, code, size, p0), r, Walk(p, l, e[..], ie[..], true, []))
  {
    hide KnownOf, Down, Up;
    p, l := p0, l0;
    ie[l] := Up(ie[l]);
    assert ie[..] == w.ie[l := Up(w.ie[l])];
    var path := ie[..l + 1];
    if !room(path) {
      return p, l, Beyond;
    }
    match KnownOf(code) {
      case AList =>
        if l + 1 >= LEVELS {
          return p, l, Beyond;
        }
        e[l] := Down(e[l]);
        l := l + 1;
        e[l] := size;
        ie[l] := 0;
        if size == 0 {
          l := l - 1;
        }
        r := GotList(path, size);
      case AnItem(f) =>
        e[l] := Down(e[l]);
        var n := size / ValueSize(f) * ValueSize(f);
        if p + n > |b| {
          return p, l, Beyond;
        }
        r := GotItem(path, f, size, b[p..p + n]);
        p := p + n;
      case NoKnown =>
        e[l] := Down(e[l]);
        r := GotUnknown;
    }
  }

  method TakeTurn(b: seq<byte>, room: Room, p0: nat, l0: nat, e: array<nat>, ie: array<nat>, ghost w: Walk)
      returns (p: nat, l: nat, r: Read1)
    requires w.Valid(b) && w == Walk(p0, l0, e[..], ie[..], false, []) && p0 < |b| && e != ie
    modifies e, ie
    ensures !r.Beyond? ==> p0 < p <= |b| && l < LEVELS
    ensures TookTurn(ReadTurn(b, room, w), r, Walk(p, l, e[..], ie[..], true, []))
  {
    hide ItemTurn, Size, LengthBytes;
    var code, size, ok := b[p0] - b[p0] % 4, 0, true;
    p, size, ok := TakeLength(b, p0);
    if !ok {
      return p, l0, Beyond;
    }
    p, l, r := TakeItem(b, room, p, l0, e, ie, code, size, w);
  }

  // ---------------------------------------------------------------- the decoder

  /** What has been reported, and that the walk goes on from here. */
  ghost predicate Joining(g: FloatText, prefix: string, b: seq<byte>, w: Walk, log: string, vars: Vars) {
    && w.Valid(b)
    && Walked(b, DecoderRoom(prefix), Start()) == Walked(b, DecoderRoom(prefix), w)
    && log == Log(g, prefix, w.out) && vars == AllVars(g, prefix, w.out, false)
  }

  lemma JoiningClosed(g: FloatText, prefix: string, b: seq<byte>, w: Walk, log: string, vars: Vars)
    requires Joining(g, prefix, b, w, log, vars) && w.closing && w.e[w.l] == 0
    ensures w.l == 0 ==> Walked(b, DecoderRoom(prefix), Start()) == Undefined
    ensures w.l > 0 ==> Joining(g, prefix, b, w.(l := w.l - 1, out := w.out + [Closed(w.l - 1)]),
                                log + (Spaces(Column(w.l)) + ">\n"), vars)
  {
    hide PathName, Log, AllVars, Spaces;
    if w.l > 0 {
      LogThen(g, prefix, w.out, Closed(w.l - 1));
      assert AllVars(g, prefix, w.out, false) + [] == AllVars(g, prefix, w.out, false);
    }
  }

  lemma JoiningOpen(g: FloatText, prefix: string, b: seq<byte>, w: Walk, log: string, vars: Vars)
    requires Joining(g, prefix, b, w, log, vars) && w.closing && w.e[w.l] != 0
    ensures Joining(g, prefix, b, w.(closing := false), log, vars)
  {
    hide PathName, Log, AllVars;
  }

  /** What a turn reports, and the walk behind it. */
  lemma JoiningTurn(g: FloatText, prefix: string, b: seq<byte>, w: Walk, log: string, vars: Vars, r: Read1, v: Walk)
    requires Joining(g, prefix, b, w, log, vars) && !w.closing && w.p < |b|
    requires TookTurn(ReadTurn(b, DecoderRoom(prefix), w.(out := [])), r, v) && v.out == []
    ensures var walk := Walked(b, DecoderRoom(prefix), Start());
            match r
            case Beyond => walk == Undefined
            case GotUnknown => walk == Unknown(v.(out := w.out))
            case _ => Joining(g, prefix, b, v.(out := w.out + [EventOf(r)]), log + Line(g, prefix, EventOf(r)),
                              vars + EventVars(g, prefix, EventOf(r), false))
  {
    hide PathName, Log, AllVars, Walked, ReadTurn, Line, EventVars;
    Turned(b, DecoderRoom(prefix), w);
    if r.GotList? || r.GotItem? { LogThen(g, prefix, w.out, EventOf(r)); }
  }

  method JoinReport(g: FloatText, prefix: string, r: Read1) returns (text: string, vars: Vars)
    requires r.GotList? || r.GotItem?
    ensures text == Line(g, prefix, EventOf(r)) && vars == EventVars(g, prefix, EventOf(r), false)
  {
    hide PathName, ItemVars, ItemVar, ItemText, HeadText;
    match r {
      case GotList(path, n) =>
        text, vars := HeadText(n), [(PathName(prefix, path), Decimal(n))];
      case GotItem(path, f, _, s) =>
        text, vars := JoinItem(g, PathName(prefix, path), f, s);
    }
    text := Padded(prefix, r.path) + text;
  }

  /** source/secs_decode_sml_no_arrays.c:34-494 */
  method SecsDecodeNoArrays(g: FloatText, prefix: string, b: seq<byte>) returns (ret: Return, log: string, vars: Vars)
    ensures Reports(g, prefix, b, false, ret, log, vars)
  {
    hide PathName, Log, AllVars, Walked, ReadTurn, Line, EventVars, Joining, TookTurn;
    var e, ie := new nat[LEVELS](_ => 0), new nat[LEVELS](_ => 0);
    var p: nat, l: nat := 0, 0;
    log, vars := "", [];
    ghost var w := Start();
    JoinsNothing(g, prefix, b);
    while p < |b|
      invariant fresh(e) && fresh(ie) && e != ie && e.Length == ie.Length == LEVELS && l < LEVELS && p <= |b|
      invariant w == Walk(p, l, e[..], ie[..], false, w.out) && Joining(g, prefix, b, w, log, vars)
      decreases |b| - p
    {
      ghost var log0, vars0 := log, vars;
      var r;
      p, l, r := TakeTurn(b, DecoderRoom(prefix), p, l, e, ie, w.(out := []));
      ghost var v := Walk(p, l, e[..], ie[..], true, []);
      JoiningTurn(g, prefix, b, w, log, vars, r, v);
      if r.Beyond? {
        return OutOfBounds, log, vars;
      } else if r.GotUnknown? {
        JoinedSofar(g, prefix, b, w, log, vars);
        return Returned(1), log, vars;
      }
      var text, more := JoinReport(g, prefix, r);
      log, vars, w := log + text, vars + more, v.(out := w.out + [EventOf(r)]);
      while e[l] == 0
        invariant l < LEVELS && e[..] == v.e && w == Walk(p, l, e[..], ie[..], true, w.out)
        invariant Joining(g, prefix, b, w, log, vars)
        decreases l
      {
        JoiningClosed(g, prefix, b, w, log, vars);
        if l == 0 {
          return OutOfBounds, log, vars;
        }
        l := l - 1;
        log := log + (Spaces(Column(l + 1)) + ">\n");
        w := w.(l := l, out := w.out + [Closed(l)]);
      }
      JoiningOpen(g, prefix, b, w, log, vars);
      w := w.(closing := false);
    }
    JoinedSofar(g, prefix, b, w, log, vars);
    AtEnd(b, DecoderRoom(prefix), w);
    ret := Returned(0);
  }

  lemma JoinsNothing(g: FloatText, prefix: string, b: seq<byte>)
    ensures Joining(g, prefix, b, Start(), "", [])
  {
    NothingYet(g, prefix);
  }

  lemma JoinedSofar(g: FloatText, prefix: string, b: seq<byte>, w: Walk, log: string, vars: Vars)
    requires Joining(g, prefix, b, w, log, vars)
    ensures w.Valid(b) && Walked(b, DecoderRoom(prefix), Start()) == Walked(b, DecoderRoom(prefix), w)
    ensures log == Log(g, prefix, w.out) && vars == AllVars(g, prefix, w.out, false)
  {
    hide Walked, Log, AllVars;
  }

  // ---------------------------------------------------------------- one decoder and the other

  /** The items, lists and closings of a message, as far as a walk goes. */
  ghost function EventsOf(b: seq<byte>, prefix: string): seq<Event> {
    var r := Walked(b, DecoderRoom(prefix), Start());
    if r.Undefined? then [] else r.w.out
  }

  /** On every buffer the two decoders return the same code and write the same log, and all variables
      of the second are those of the first with the values of every item joined. */
  lemma DecodersAgree(g: FloatText, prefix: string, b: seq<byte>, ret: Return, log: string, vars: Vars,
                      ret1: Return, log1: string, vars1: Vars)
    requires Reports(g, prefix, b, true, ret, log, vars) && Reports(g, prefix, b, false, ret1, log1, vars1)
    ensures ret == ret1
    ensures ret.Returned? ==> log == log1 && vars1 == JoinedAll(prefix, EventsOf(b, prefix), vars)
  {
    hide Walked, Log, AllVars, JoinedAll, AllWhole;
    assert AllWhole(Start().out) by { NoneWhole(); }
    WalkedWhole(b, DecoderRoom(prefix), Start());
    if ret.Returned? { OutputJoined(g, prefix, EventsOf(b, prefix)); }
  }

  lemma NoneWhole()
    ensures AllWhole([])
  {
  }
}
