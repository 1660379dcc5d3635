/** What the second decoder stores, as a function of what the first one stores: for every item the
    values the first one has put into variables, joined (source/secs_decode_sml_no_arrays.c:160-470). */
module SecsJoin {
  import opened Bytes
  import opened Numerals
  import opened SecsItems
  import opened SecsWalk
  import opened SecsText

  // ---------------------------------------------------------------- one item

  /** The variables of an item that hold a value, without those that mark an array or an empty item. */
  function ValueVars(f: Format, size: nat, vars: Vars): Vars {
    var marks := if f == Hex then 3 else 2;
    if IsArray(f, size) then (if |vars| < marks then [] else vars[..|vars| - marks])
    else if size == 0 then []
    else vars
  }

  /** A value as the second decoder writes it: a boolean as a letter, a BINARY value in hexadecimal. */
  function JoinText(f: Format, text: string): string {
    match f
    case Boolean => if text == "0" then "F" else "T"
    case Hex => HexText(ReadUnsigned(text).value % 256)
    case _ => text
  }

  function JoinTexts(f: Format, texts: seq<string>): string {
    if texts == [] then "" else (JoinText(f, texts[0]) + " ") + JoinTexts(f, texts[1..])
  }

  /** The one variable of an item from its variables. */
  function JoinedVars(name: string, f: Format, size: nat, vars: Vars): Vars {
    if f == Ascii then vars else [(name, JoinTexts(f, Texts(ValueVars(f, size, vars))))]
  }

  lemma OneJoined(g: FloatText, f: Format, s: seq<byte>)
    requires |s| == ValueSize(f)
    ensures JoinText(f, ValueText(g, f, s)) == JoinedValue(g, f, s)
  {
    hide Decimal, HexText, ReadUnsigned, Number, SignedDecimal, TwosComplement;
    if f == Hex {
      OneByte(s);
      HexJoined(s[0]);
    }
  }

  lemma HexJoined(b: byte)
    ensures ReadUnsigned(Decimal(b)).value % 256 == b
  {
    hide Decimal, ReadUnsigned;
    UnsignedRoundTrip(b);
  }

  lemma {:induction false} ValuesJoined(g: FloatText, f: Format, s: seq<byte>)
    ensures JoinTexts(f, Values(g, f, s)) == JoinedValues(g, f, s)
    decreases |s|
  {
    hide JoinText, JoinedValue, ValueText;
    var n := ValueSize(f);
    if |s| >= n {
      OneJoined(g, f, s[..n]);
      ValuesJoined(g, f, s[n..]);
      assert Values(g, f, s)[1..] == Values(g, f, s[n..]);
    }
  }

  lemma {:induction false} IndexedTexts(name: string, array_: bool, i: nat, values: seq<string>)
    ensures Texts(Indexed(name, array_, i, values)) == values
    decreases |values|
  {
    hide Bracketed, Texts;
    if values == [] {
      TextsNone();
    } else {
      IndexedTexts(name, array_, i + 1, values[1..]);
      var first := (if array_ then name + Bracketed(i + 1) else name, values[0]);
      TextsMore(first, Indexed(name, array_, i + 1, values[1..]));
      assert values == [values[0]] + values[1..];
    }
  }

  lemma TextsNone()
    ensures Texts([]) == []
  {
  }

  lemma TextsMore(v: (string, string), vars: Vars)
    ensures Texts([v] + vars) == [v.1] + Texts(vars)
  {
  }

  lemma ItemValueVars(g: FloatText, name: string, f: Format, s: seq<byte>, size: nat)
    requires f != Ascii && |s| == size / ValueSize(f) * ValueSize(f)
    ensures ValueVars(f, size, ItemVars(g, name, f, s, size)) == Indexed(name, IsArray(f, size), 0, Values(g, f, s))
  {
    hide Bracketed, Indexed, HexTexts, Decimal, Values, ValueSize, IsArray;
    var array_ := IsArray(f, size);
    var values := Indexed(name, array_, 0, Values(g, f, s));
    if size == 0 {
      NoValue(g, name, f);
    } else if array_ {
      var hex := if f == Hex then [(name + "[]", HexTexts(s))] else [];
      var marks := [(name, "ARRAY"), (name + "[0]", Decimal(|Values(g, f, s)|))];
      assert ItemVars(g, name, f, s, size) == values + (hex + marks);
      assert (values + (hex + marks))[..|values|] == values;
    } else {
      assert ItemVars(g, name, f, s, size) == values;
    }
  }

  lemma NoValue(g: FloatText, name: string, f: Format)
    ensures !IsArray(f, 0) && 0 / ValueSize(f) * ValueSize(f) == 0
    ensures Values(g, f, []) == [] && Indexed(name, false, 0, []) == []
  {
  }

  /** Of every item the second decoder stores the joined values of the first. */
  lemma ItemJoined(g: FloatText, name: string, f: Format, s: seq<byte>, size: nat)
    requires |s| == size / ValueSize(f) * ValueSize(f)
    ensures ItemVar(g, name, f, s) == JoinedVars(name, f, size, ItemVars(g, name, f, s, size))
  {
    hide ValueVars, Values, Indexed, JoinedValues, JoinTexts, IsArray;
    if f != Ascii {
      ItemValueVars(g, name, f, s, size);
      IndexedTexts(name, IsArray(f, size), 0, Values(g, f, s));
      ValuesJoined(g, f, s);
    }
  }

  // ---------------------------------------------------------------- a whole message

  /** How many variables the first decoder stores for an event. */
  function VarCount(ev: Event): nat {
    match ev
    case Opened(_, _) => 1
    case Closed(_) => 0
    case Item(_, f, size, _) =>
      if f == Ascii then 1
      else
        var array_ := IsArray(f, size);
        (if size == 0 && !f.Float? then 1 else 0) + size / ValueSize(f)
        + (if array_ && f == Hex then 1 else 0) + (if array_ then 2 else 0)
  }

  /** The variables of an event of the second decoder from those of the first. Only the path, the
      format and the length of an item are used. */
  function JoinedEvent(prefix: string, ev: Event, vars: Vars): Vars {
    match ev
    case Item(path, f, size, _) => JoinedVars(PathName(prefix, path), f, size, vars)
    case _ => vars
  }

  /** The variables of the second decoder from all variables of the first, cut into the stretches
      that belong to the events. */
  function JoinedAll(prefix: string, events: seq<Event>, vars: Vars): Vars {
    if events == [] then []
    else
      var ev, front := events[|events| - 1], events[..|events| - 1];
      var cut := if |vars| < VarCount(ev) then 0 else |vars| - VarCount(ev);
      JoinedAll(prefix, front, vars[..cut]) + JoinedEvent(prefix, ev, vars[cut..])
  }

  /** An item holds as many whole values as fit its length. */
  predicate WholeValues(ev: Event) {
    ev.Item? ==> |ev.bytes| == ev.size / ValueSize(ev.f) * ValueSize(ev.f)
  }

  predicate AllWhole(events: seq<Event>) { forall k :: 0 <= k < |events| ==> WholeValues(events[k]) }

  lemma EventJoined(g: FloatText, prefix: string, ev: Event)
    requires WholeValues(ev)
    ensures |EventVars(g, prefix, ev, true)| == VarCount(ev)
    ensures EventVars(g, prefix, ev, false) == JoinedEvent(prefix, ev, EventVars(g, prefix, ev, true))
  {
    hide JoinedVars, ItemVar, ItemVars;
    if ev.Item? {
      var name := PathName(prefix, ev.path);
      ItemJoined(g, name, ev.f, ev.bytes, ev.size);
      ItemCount(g, name, ev.f, ev.bytes, ev.size, ev.path);
    }
  }

  lemma ItemCount(g: FloatText, name: string, f: Format, s: seq<byte>, size: nat, path: seq<nat>)
    requires |s| == size / ValueSize(f) * ValueSize(f)
    ensures |ItemVars(g, name, f, s, size)| == VarCount(Item(path, f, size, s))
  {
    hide Bracketed, Indexed, Values, HexTexts, Decimal;
    var n := ValueSize(f);
    if f != Ascii {
      ValuesCount(g, f, s);
      assert |s| / n == size / n;
      IndexedTexts(name, IsArray(f, size), 0, Values(g, f, s));
    }
  }

  /** For every row of events, all variables of the second decoder are the variables of the first
      with the values of each item joined. */
  lemma {:induction false} OutputJoined(g: FloatText, prefix: string, events: seq<Event>)
    requires AllWhole(events)
    ensures AllVars(g, prefix, events, false) == JoinedAll(prefix, events, AllVars(g, prefix, events, true))
    decreases |events|
  {
    hide EventVars, JoinedEvent, VarCount;
    if events != [] {
      var ev, front := events[|events| - 1], events[..|events| - 1];
      OutputJoined(g, prefix, front);
      EventJoined(g, prefix, ev);
      var a, b := AllVars(g, prefix, front, true), EventVars(g, prefix, ev, true);
      assert (a + b)[..|a|] == a && (a + b)[|a|..] == b;
    }
  }

  // ---------------------------------------------------------------- the events of a walk

  lemma ItemTurnWhole(b: seq<byte>, room: Room, w: Walk, code: int, size: nat, q: nat)
    requires w.Valid(b) && w.p < q <= |b| && AllWhole(w.out)
    ensures !ItemTurn(b, room, w, code, size, q).Undefined? ==> AllWhole(ItemTurn(b, room, w, code, size, q).w.out)
  {
    hide KnownOf, Up, Down;
  }

  lemma ReadTurnWhole(b: seq<byte>, room: Room, w: Walk)
    requires w.Valid(b) && w.p < |b| && AllWhole(w.out)
    ensures !ReadTurn(b, room, w).Undefined? ==> AllWhole(ReadTurn(b, room, w).w.out)
  {
    hide ItemTurn, AllWhole, Size, LengthBytes;
    var n := LengthBytes(b[w.p]);
    if w.p + 1 + n <= |b| {
      ItemTurnWhole(b, room, w, b[w.p] - b[w.p] % 4, Size(b, w.p + 1, n), w.p + 1 + n);
    }
  }

  /** Every item a walk reports holds the whole values of its length. */
  lemma {:induction false} WalkedWhole(b: seq<byte>, room: Room, w: Walk)
    requires w.Valid(b) && AllWhole(w.out)
    ensures !Walked(b, room, w).Undefined? ==> AllWhole(Walked(b, room, w).w.out)
    decreases |b| - w.p, if w.closing then w.l + 1 else 0
  {
    hide ReadTurn;
    if w.closing {
      if w.e[w.l] != 0 {
        WalkedWhole(b, room, w.(closing := false));
      } else if w.l > 0 {
        WalkedWhole(b, room, w.(l := w.l - 1, out := w.out + [Closed(w.l - 1)]));
      }
    } else if w.p < |b| {
      ReadTurnWhole(b, room, w);
      var r := ReadTurn(b, room, w);
      if r.Decoded? { WalkedWhole(b, room, r.w); }
    }
  }
}
