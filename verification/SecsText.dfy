/** What the two decoders report of an item: lines of the log, and variables
    (source/secs_decode_sml.c:121-736, source/secs_decode_sml_no_arrays.c:112-477). */
module SecsText {
  import opened Bytes
  import opened Numerals
  import opened SecsItems
  import opened SecsTree
  import opened SecsRoundTrip
  import opened SecsWalk

  /** How `printf` writes a floating point number is a parameter. */
  type FloatText = (Width, seq<byte>) -> string

  type Vars = seq<(string, string)>

  // ---------------------------------------------------------------- names

  function PathName(prefix: string, path: seq<nat>): string {
    if path == [] then prefix else PathName(prefix, path[..|path| - 1]) + "." + Decimal(path[|path| - 1])
  }

  function Spaces(n: int): (s: string)
    ensures |s| == if n < 0 then 0 else n
  {
    if n <= 0 then "" else [' '] + Spaces(n - 1)
  }

  /** The name column is three characters a level and thirty more. */
  function Column(levels: nat): nat { 3 * levels + 30 }

  /** A line starts with the name, filled up to its column; the buffer for it has 256 characters. */
  function DecoderRoom(prefix: string): Room {
    path => Column(|path|) < 256 && |PathName(prefix, path)| <= Column(|path|)
  }

  function Padded(prefix: string, path: seq<nat>): string {
    PathName(prefix, path) + Spaces(Column(|path|) - |PathName(prefix, path)|)
  }

  function Bracketed(i: nat): string { "[" + Decimal(i) + "]" }

  // ---------------------------------------------------------------- values

  function TwosComplement(n: nat, k: nat): int {
    if n < Power(256, k) / 2 then n else n - Power(256, k)
  }

  /** One value as a variable holds it. */
  function ValueText(g: FloatText, f: Format, s: seq<byte>): string
    requires |s| == ValueSize(f)
  {
    match f
    case Boolean => if s[0] == 0 then "0" else "1"
    case Signed(w) => SignedDecimal(TwosComplement(Number(s), w.Size()))
    case Float(w) => g(w, s)
    case _ => Decimal(Number(s))
  }

  /** The values of an item's data, in order. */
  function Values(g: FloatText, f: Format, s: seq<byte>): seq<string>
    decreases |s|
  {
    if |s| < ValueSize(f) then [] else [ValueText(g, f, s[..ValueSize(f)])] + Values(g, f, s[ValueSize(f)..])
  }

  const HEX := "0123456789ABCDEF"

  function HexText(b: byte): string { [HEX[b / 16], HEX[b % 16]] }

  /** One value as the log shows it. */
  function LogValue(g: FloatText, f: Format, s: seq<byte>): string
    requires |s| == ValueSize(f)
  {
    match f
    case Boolean => if s[0] == 0 then " FALSE" else " TRUE"
    case Hex => " " + (HexText(s[0]) + " (" + Decimal(s[0]) + ")")
    case _ => " " + ValueText(g, f, s)
  }

  function LogValues(g: FloatText, f: Format, s: seq<byte>): string
    decreases |s|
  {
    if |s| < ValueSize(f) then "" else LogValue(g, f, s[..ValueSize(f)]) + LogValues(g, f, s[ValueSize(f)..])
  }

  function CharsOf(s: seq<byte>): (t: string)
    ensures |t| == |s| && forall k :: 0 <= k < |s| ==> t[k] == s[k] as char
  {
    seq(|s|, k requires 0 <= k < |s| => s[k] as char)
  }

  function WidthText(w: Width): string {
    match w
    case W1 => "1"
    case W2 => "2"
    case W4 => "4"
    case W8 => "8"
  }

  function FormatText(f: Format): string {
    match f
    case Ascii => "A"
    case Boolean => "BOOLEAN"
    case Hex => "BINARY"
    case Unsigned(w) => "U" + WidthText(w)
    case Signed(w) => "I" + WidthText(w)
    case Float(w) => "F" + WidthText(w)
  }

  // ---------------------------------------------------------------- the log

  function ItemText(g: FloatText, f: Format, s: seq<byte>): string {
    if f == Ascii then "<A \"" + CharsOf(s) + "\">\n"
    else "<" + FormatText(f) + LogValues(g, f, s) + ">\n"
  }

  function HeadText(n: nat): string { "<L " + Decimal(n) + if n > 0 then "\n" else ">\n" }

  function Line(g: FloatText, prefix: string, ev: Event): string {
    match ev
    case Opened(path, n) => Padded(prefix, path) + HeadText(n)
    case Item(path, f, _, s) => Padded(prefix, path) + ItemText(g, f, s)
    case Closed(l) => Spaces(Column(l + 1)) + ">\n"
  }

  function Log(g: FloatText, prefix: string, events: seq<Event>): string {
    if events == [] then ""
    else Log(g, prefix, events[..|events| - 1]) + Line(g, prefix, events[|events| - 1])
  }

  // ---------------------------------------------------------------- variables, one a value

  /** More than one value makes an array; a single U1 value makes one too. */
  predicate IsArray(f: Format, size: nat) {
    f != Ascii && if f == Unsigned(W1) then size > 0 else size > ValueSize(f)
  }

  function Indexed(name: string, array_: bool, i: nat, values: seq<string>): Vars
    decreases |values|
  {
    if values == [] then []
    else [(if array_ then name + Bracketed(i + 1) else name, values[0])] + Indexed(name, array_, i + 1, values[1..])
  }

  function HexTexts(s: seq<byte>): string {
    if s == [] then "" else HexTexts(s[..|s| - 1]) + HexText(s[|s| - 1])
  }

  function ItemVars(g: FloatText, name: string, f: Format, s: seq<byte>, size: nat): Vars {
    if f == Ascii then [(name, CharsOf(s))]
    else
      var array_ := IsArray(f, size);
      (if size == 0 && !f.Float? then [(name, "")] else [])
      + Indexed(name, array_, 0, Values(g, f, s))
      + (if array_ && f == Hex then [(name + "[]", HexTexts(s))] else [])
      + (if array_ then [(name, "ARRAY"), (name + "[0]", Decimal(|Values(g, f, s)|))] else [])
  }

  // ---------------------------------------------------------------- variables, one an item

  function JoinedValue(g: FloatText, f: Format, s: seq<byte>): string
    requires |s| == ValueSize(f)
  {
    match f
    case Boolean => if s[0] == 0 then "F" else "T"
    case Hex => HexText(s[0])
    case _ => ValueText(g, f, s)
  }

  function JoinedValues(g: FloatText, f: Format, s: seq<byte>): string
    decreases |s|
  {
    if |s| < ValueSize(f) then ""
    else JoinedValue(g, f, s[..ValueSize(f)]) + " " + JoinedValues(g, f, s[ValueSize(f)..])
  }

  function ItemVar(g: FloatText, name: string, f: Format, s: seq<byte>): Vars {
    [(name, if f == Ascii then CharsOf(s) else JoinedValues(g, f, s))]
  }

  function EventVars(g: FloatText, prefix: string, ev: Event, arrays: bool): Vars {
    match ev
    case Opened(path, n) => [(PathName(prefix, path), Decimal(n))]
    case Item(path, f, size, s) =>
      if arrays then ItemVars(g, PathName(prefix, path), f, s, size) else ItemVar(g, PathName(prefix, path), f, s)
    case Closed(_) => []
  }

  function AllVars(g: FloatText, prefix: string, events: seq<Event>, arrays: bool): Vars {
    if events == [] then []
    else AllVars(g, prefix, events[..|events| - 1], arrays) + EventVars(g, prefix, events[|events| - 1], arrays)
  }

  lemma LogThen(g: FloatText, prefix: string, events: seq<Event>, ev: Event)
    ensures Log(g, prefix, events + [ev]) == Log(g, prefix, events) + Line(g, prefix, ev)
    ensures forall a ::
              AllVars(g, prefix, events + [ev], a) == AllVars(g, prefix, events, a) + EventVars(g, prefix, ev, a)
  {
    hide Line, EventVars;
    assert (events + [ev])[..|events|] == events;
  }

  // ---------------------------------------------------------------- one decoder and the other

  function Spaced(values: seq<string>): string {
    if values == [] then "" else values[0] + " " + Spaced(values[1..])
  }

  lemma {:induction false} JoinedSpaced(g: FloatText, f: Format, s: seq<byte>)
    requires f.Unsigned? || f.Signed? || f.Float?
    ensures JoinedValues(g, f, s) == Spaced(Values(g, f, s))
    decreases |s|
  {
    if |s| >= ValueSize(f) {
      JoinedSpaced(g, f, s[ValueSize(f)..]);
    }
  }

  lemma {:induction false} IndexedAt(name: string, i: nat, values: seq<string>, k: nat)
    requires k < |values|
    ensures |Indexed(name, true, i, values)| == |values|
    ensures Indexed(name, true, i, values)[k] == (name + Bracketed(i + k + 1), values[k])
    decreases |values|
  {
    if k > 0 {
      IndexedAt(name, i + 1, values[1..], k - 1);
    } else if |values| > 1 {
      IndexedAt(name, i + 1, values[1..], 0);
    }
  }

  lemma OneMore(a: nat, n: nat)
    requires 0 < n <= a
    ensures a / n == 1 + (a - n) / n
  {
    assert a == n * ((a - n) / n + 1) + (a - n) % n by {
      assert n * ((a - n) / n + 1) == n * ((a - n) / n) + n;
    }
    DivUnique(a, n, (a - n) / n + 1, (a - n) % n);
  }

  lemma {:induction false} ValuesCount(g: FloatText, f: Format, s: seq<byte>)
    ensures |Values(g, f, s)| == |s| / ValueSize(f)
    decreases |s|
  {
    if |s| >= ValueSize(f) {
      ValuesCount(g, f, s[ValueSize(f)..]);
      OneMore(|s|, ValueSize(f));
    }
  }

  /** For a number with two values or more, the one variable of the second decoder is the variables
      of the first in order, each followed by a space; the first also stores how many there are. */
  lemma JoinedIsArray(g: FloatText, name: string, f: Format, s: seq<byte>)
    requires f.Unsigned? || f.Signed? || f.Float?
    requires |s| >= 2 * ValueSize(f)
    ensures var vars, n := ItemVars(g, name, f, s, |s|), |s| / ValueSize(f);
            && |vars| == n + 2
            && (forall k :: 0 <= k < n ==> vars[k].0 == name + Bracketed(k + 1))
            && vars[n..] == [(name, "ARRAY"), (name + "[0]", Decimal(n))]
            && ItemVar(g, name, f, s) == [(name, Spaced(Texts(vars[..n])))]
  {
    hide Bracketed, Values, Indexed, JoinedValues, Spaced, Decimal;
    var values := Values(g, f, s);
    ValuesCount(g, f, s);
    JoinedSpaced(g, f, s);
    var found := Indexed(name, true, 0, values);
    assert |values| > 0;
    IndexedAt(name, 0, values, 0);
    forall k | 0 <= k < |values| ensures found[k] == (name + Bracketed(k + 1), values[k]) {
      IndexedAt(name, 0, values, k);
    }
    assert ItemVars(g, name, f, s, |s|) == found + [(name, "ARRAY"), (name + "[0]", Decimal(|values|))];
    assert Texts(found) == values;
  }

  function Texts(vars: Vars): (t: seq<string>)
    ensures |t| == |vars| && forall k :: 0 <= k < |vars| ==> t[k] == vars[k].1
  {
    seq(|vars|, k requires 0 <= k < |vars| => vars[k].1)
  }

  // ---------------------------------------------------------------- room

  /** Lists of at most 99 items, at most `depth` levels deep. */
  predicate Modest(s: seq<Node>, depth: nat)
    decreases s
  {
    && |s| <= 99 && (s != [] ==> depth > 0)
    && forall k :: 0 <= k < |s| ==> s[k].Branch? ==> Modest(s[k].children, depth - 1)
  }

  lemma {:induction false} ShortName(prefix: string, path: seq<nat>)
    requires |prefix| <= 30 && forall k :: 0 <= k < |path| ==> path[k] < 100
    ensures |PathName(prefix, path)| <= Column(|path|)
    decreases |path|
  {
    if path != [] {
      ShortName(prefix, path[..|path| - 1]);
      assert Power(10, 2) == 100;
      DecimalLength(path[|path| - 1], 2);
    }
  }

  /** Messages of at most 99 items a list and 75 levels, reported under a prefix of at most 30
      characters, have room for every line. */
  lemma {:induction false} ModestRoomy(prefix: string, s: seq<Node>, path: seq<nat>, i: nat)
    requires |prefix| <= 30 && |path| <= 75 && i + |s| <= 99 && (forall k :: 0 <= k < |path| ==> path[k] < 100)
    requires Modest(s, 75 - |path|)
    ensures AllRoomy(DecoderRoom(prefix), s, path, i)
    decreases s
  {
    hide PathName;
    if s != [] {
      var here := path + [i + 1];
      ShortName(prefix, here);
      if s[0].Branch? {
        ModestRoomy(prefix, s[0].children, here, 0);
      }
      assert forall k :: 0 <= k < |s[1..]| ==> s[1..][k] == s[k + 1];
      ModestRoomy(prefix, s[1..], path, i + 1);
    }
  }
}
