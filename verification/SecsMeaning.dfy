/** What the decoders report of a message, said of the values in it: numbers in, their decimals out
    (source/secs_decode_sml.c:186-736, source/secs_decode_sml_no_arrays.c:164-474). */
module SecsMeaning {
  import opened Bytes
  import opened Machine
  import opened Numerals
  import opened SecsItems
  import opened SecsCodes
  import opened SecsTree
  import opened SecsWalk
  import opened SecsRoundTrip
  import opened SecsText
  import opened SecsDecoders

  // ---------------------------------------------------------------- numbers

  /** The numbers of a format. */
  predicate InRange(f: Format, v: int) {
    match f
    case Unsigned(w) => 0 <= v < Power(256, w.Size())
    case Signed(w) => -(Power(256, w.Size()) / 2) <= v < Power(256, w.Size()) / 2
    case _ => false
  }

  lemma RangeStored(f: Format, v: int)
    requires InRange(f, v)
    ensures -TWO_63 <= v < TWO_64
  {
    Powers();
  }

  /** The bytes of a number are the number, signed ones in two's complement. */
  lemma NumberStored(f: Format, v: int)
    requires InRange(f, v) && -TWO_63 <= v < TWO_64
    ensures var n := Number(Stored(v, ValueSize(f)));
            if f.Unsigned? then n == v else TwosComplement(n, ValueSize(f)) == v
  {
    hide Power, BigEndian, Number;
    Powers();
    var k := ValueSize(f);
    if v >= 0 {
      NumberOf(v, k);
    } else {
      var m, q := Power(256, k), Ones(f.w);
      OnesFill(f.w);
      assert v + TWO_64 == (v + m) + q * m;
      BigEndianHigh(v + m, q, k);
      NumberOf(v + m, k);
    }
  }

  /** A number is reported as its decimal, with a sign where it is negative. */
  lemma NumberReported(g: FloatText, f: Format, v: int)
    requires InRange(f, v) && -TWO_63 <= v < TWO_64
    ensures var s := Stored(v, ValueSize(f));
            && ValueText(g, f, s) == SignedDecimal(v) && LogValue(g, f, s) == " " + SignedDecimal(v)
            && JoinedValue(g, f, s) == SignedDecimal(v)
  {
    hide Stored, Number, TwosComplement, Decimal;
    NumberStored(f, v);
  }

  // ---------------------------------------------------------------- messages of values

  datatype Datum =
    | Text(chars: seq<byte>)
    | Truths(bs: seq<byte>)
    | Binary(bs: seq<byte>)
    | Ints(f: Format, vs: seq<int>)
    | Group(items: seq<Datum>)

  predicate Sound(d: Datum)
    decreases d
  {
    match d
    case Text(s) => |s| < 0x1000000
    case Truths(s) => |s| < 0x1000000
    case Binary(s) => |s| < 0x1000000
    case Ints(f, vs) =>
      (f.Unsigned? || f.Signed?) && AllInRange(f, vs) && ValueSize(f) * |vs| < 0x1000000
    case Group(items) => |items| < 0x1000000 && AllSound(items)
  }

  predicate AllSound(items: seq<Datum>)
    decreases items
  {
    items == [] || (Sound(items[0]) && AllSound(items[1..]))
  }

  predicate AllInRange(f: Format, vs: seq<int>) {
    forall k :: 0 <= k < |vs| ==> InRange(f, vs[k]) && -TWO_63 <= vs[k] < TWO_64
  }

  function StoredNumbers(f: Format, vs: seq<int>): (s: seq<byte>)
    requires AllInRange(f, vs)
    ensures |s| == ValueSize(f) * |vs|
  {
    if vs == [] then [] else Stored(vs[0], ValueSize(f)) + StoredNumbers(f, vs[1..])
  }

  function FormatOf(d: Datum): Format
    requires !d.Group?
  {
    match d
    case Text(_) => Ascii
    case Truths(_) => Boolean
    case Binary(_) => Hex
    case Ints(f, _) => f
  }

  function DataOf(d: Datum): seq<byte>
    requires Sound(d) && !d.Group?
  {
    match d
    case Text(s) => s
    case Truths(s) => s
    case Binary(s) => s
    case Ints(f, vs) => StoredNumbers(f, vs)
  }

  function NodeOf(d: Datum): Node
    requires Sound(d)
    decreases d
  {
    match d
    case Group(items) => Branch(NodesOf(items))
    case _ => Leaf(FormatOf(d), DataOf(d))
  }

  function NodesOf(items: seq<Datum>): (s: seq<Node>)
    requires AllSound(items)
    ensures |s| == |items|
    decreases items
  {
    if items == [] then [] else [NodeOf(items[0])] + NodesOf(items[1..])
  }

  // ---------------------------------------------------------------- what is to be reported

  function HexDigit(d: nat): char
    requires d < 16
  {
    if d < 10 then '0' + d as char else 'A' + (d - 10) as char
  }

  function TwoDigits(b: byte): string { [HexDigit(b / 16), HexDigit(b % 16)] }

  /** The values of an item as its variables hold them. */
  function Held(d: Datum): (t: seq<string>) {
    match d
    case Truths(s) => seq(|s|, k requires 0 <= k < |s| => if s[k] == 0 then "0" else "1")
    case Binary(s) => seq(|s|, k requires 0 <= k < |s| => Decimal(s[k]))
    case Ints(_, vs) => seq(|vs|, k requires 0 <= k < |vs| => SignedDecimal(vs[k]))
    case _ => []
  }

  /** As the log shows them. */
  function Logged(d: Datum): (t: seq<string>) {
    match d
    case Truths(s) => seq(|s|, k requires 0 <= k < |s| => if s[k] == 0 then "FALSE" else "TRUE")
    case Binary(s) => seq(|s|, k requires 0 <= k < |s| => TwoDigits(s[k]) + " (" + Decimal(s[k]) + ")")
    case _ => Held(d)
  }

  /** As the second decoder writes them. */
  function Written(d: Datum): (t: seq<string>) {
    match d
    case Truths(s) => seq(|s|, k requires 0 <= k < |s| => if s[k] == 0 then "F" else "T")
    case Binary(s) => seq(|s|, k requires 0 <= k < |s| => TwoDigits(s[k]))
    case _ => Held(d)
  }

  function Each(name: string, texts: seq<string>): Vars {
    seq(|texts|, k requires 0 <= k < |texts| => (name + "[" + Decimal(k + 1) + "]", texts[k]))
  }

  /** Each text with `a` in front and `z` behind it. */
  function Strung(a: string, texts: seq<string>, z: string): string {
    if texts == [] then "" else (a + texts[0] + z) + Strung(a, texts[1..], z)
  }

  predicate OneByteNumbers(d: Datum) { d.Ints? && d.f == Unsigned(W1) }

  /** One variable a value: an item with one value, if it is no U1, is a variable of its name, an item
      with more an array, the number of values under index 0. */
  function DatumVars(name: string, d: Datum): Vars {
    match d
    case Text(s) => [(name, CharsOf(s))]
    case _ =>
      var texts := Held(d);
      if texts == [] then [(name, "")]
      else if |texts| == 1 && !OneByteNumbers(d) then [(name, texts[0])]
      else
        Each(name, texts) + (if d.Binary? then [(name + "[]", Strung("", Written(d), ""))] else [])
        + [(name, "ARRAY"), (name + "[0]", Decimal(|texts|))]
  }

  /** One variable an item. */
  function DatumVar(name: string, d: Datum): Vars {
    [(name, if d.Text? then CharsOf(d.chars) else Strung("", Written(d), " "))]
  }

  function DatumText(d: Datum): string
    requires !d.Group?
  {
    if d.Text? then "<A \"" + CharsOf(d.chars) + "\">\n"
    else "<" + (if Real(FormatOf(d)) then StandardWord(FormatOf(d)) else "") + Strung(" ", Logged(d), "") + ">\n"
  }

  /** The items of a list have the name of the list, a full stop, and their number in it. */
  function NameIn(name: string, i: nat): string { name + "." + Decimal(i + 1) }

  function MessageVars(name: string, items: seq<Datum>, i: nat, arrays: bool): Vars
    decreases items
  {
    if items == [] then []
    else
      var d, own := items[0], NameIn(name, i);
      (match d
       case Group(inner) => [(own, Decimal(|inner|))] + MessageVars(own, inner, 0, arrays)
       case _ => if arrays then DatumVars(own, d) else DatumVar(own, d))
      + MessageVars(name, items[1..], i + 1, arrays)
  }

  function Blank(n: int): string { seq(if n < 0 then 0 else n, _ => ' ') }

  /** The name in its column, three characters wider on every level. */
  function InColumn(name: string, depth: nat): string { name + Blank(3 * depth + 30 - |name|) }

  function MessageLog(name: string, depth: nat, items: seq<Datum>, i: nat): string
    decreases items
  {
    if items == [] then ""
    else
      var d, own := items[0], NameIn(name, i);
      (match d
       case Group(inner) =>
         if inner == [] then InColumn(own, depth + 1) + "<L 0>\n"
         else
           (InColumn(own, depth + 1) + "<L " + Decimal(|inner|) + "\n")
           + (MessageLog(own, depth + 1, inner, 0) + (Blank(3 * (depth + 1) + 30) + ">\n"))
       case _ => InColumn(own, depth + 1) + DatumText(d))
      + MessageLog(name, depth, items[1..], i + 1)
  }

  // ---------------------------------------------------------------- the values of an item

  /** A first value and the others, as variables, in the log and joined. */
  lemma FirstValue(g: FloatText, f: Format, v: seq<byte>, more: seq<byte>)
    requires |v| == ValueSize(f)
    ensures Values(g, f, v + more) == [ValueText(g, f, v)] + Values(g, f, more)
    ensures LogValues(g, f, v + more) == LogValue(g, f, v) + LogValues(g, f, more)
    ensures JoinedValues(g, f, v + more) == (JoinedValue(g, f, v) + " ") + JoinedValues(g, f, more)
  {
    hide ValueText, LogValue, JoinedValue;
    assert (v + more)[..|v|] == v && (v + more)[|v|..] == more;
  }

  lemma StrungStep(a: string, t: string, more: seq<string>, z: string)
    ensures Strung(a, [t] + more, z) == (a + t + z) + Strung(a, more, z)
  {
    assert ([t] + more)[1..] == more;
  }

  /** The values reported of an item are those of the datum. */
  ghost predicate ValuesAs(g: FloatText, f: Format, s: seq<byte>, held: seq<string>, logged: seq<string>,
                           written: seq<string>)
  {
    && Values(g, f, s) == held && LogValues(g, f, s) == Strung(" ", logged, "")
    && JoinedValues(g, f, s) == Strung("", written, " ")
  }

  lemma OneMoreValue(g: FloatText, f: Format, v: seq<byte>, s: seq<byte>, h: string, held: seq<string>, t: string,
                     logged: seq<string>, w: string, written: seq<string>)
    requires |v| == ValueSize(f) && ValuesAs(g, f, s, held, logged, written)
    requires ValueText(g, f, v) == h && LogValue(g, f, v) == " " + t && JoinedValue(g, f, v) == w
    ensures ValuesAs(g, f, v + s, [h] + held, [t] + logged, [w] + written)
  {
    hide ValueText, LogValue, JoinedValue, Values, LogValues, JoinedValues, Strung;
    FirstValue(g, f, v, s);
    StrungStep(" ", t, logged, "");
    StrungStep("", w, written, " ");
    assert " " + t + "" == " " + t && "" + w + " " == w + " ";
  }

  lemma {:induction false} NumbersHeld(g: FloatText, f: Format, vs: seq<int>)
    requires AllInRange(f, vs)
    ensures var h := Held(Ints(f, vs)); ValuesAs(g, f, StoredNumbers(f, vs), h, h, h)
    decreases |vs|
  {
    hide Stored, ValuesAs, InRange, ValueText, LogValue, JoinedValue, SignedDecimal;
    if vs == [] {
      NothingHeld(g, f);
    } else {
      var v, more := vs[0], vs[1..];
      NumbersHeld(g, f, more);
      NumberReported(g, f, v);
      var h := Held(Ints(f, more));
      OneMoreValue(g, f, Stored(v, ValueSize(f)), StoredNumbers(f, more), SignedDecimal(v), h, SignedDecimal(v), h,
                   SignedDecimal(v), h);
      assert Held(Ints(f, vs)) == [SignedDecimal(v)] + h;
    }
  }

  lemma NothingHeld(g: FloatText, f: Format)
    ensures ValuesAs(g, f, [], [], [], [])
  {
  }

  lemma HexTwoDigits(b: byte)
    ensures HexText(b) == TwoDigits(b)
  {
    assert forall d: nat :: d < 16 ==> HEX[d] == HexDigit(d);
  }

  lemma {:induction false} TruthsHeld(g: FloatText, s: seq<byte>)
    ensures var d := Truths(s); ValuesAs(g, Boolean, s, Held(d), Logged(d), Written(d))
    decreases |s|
  {
    hide ValuesAs, Held, Logged, Written, ValueText, LogValue, JoinedValue;
    if s == [] {
      NothingHeld(g, Boolean);
      NoTruths();
    } else {
      var b, more := s[0], Truths(s[1..]);
      TruthsHeld(g, s[1..]);
      OneTruth(g, b);
      OneMoreValue(g, Boolean, [b], s[1..], if b == 0 then "0" else "1", Held(more), if b == 0 then "FALSE" else "TRUE",
                   Logged(more), if b == 0 then "F" else "T", Written(more));
      assert s == [b] + s[1..];
      TruthsThen(s);
    }
  }

  lemma NoTruths()
    ensures var d := Truths([]); Held(d) == [] && Logged(d) == [] && Written(d) == []
  {
  }

  lemma OneTruth(g: FloatText, b: byte)
    ensures ValueText(g, Boolean, [b]) == if b == 0 then "0" else "1"
    ensures LogValue(g, Boolean, [b]) == " " + if b == 0 then "FALSE" else "TRUE"
    ensures JoinedValue(g, Boolean, [b]) == if b == 0 then "F" else "T"
  {
    assert " " + "FALSE" == " FALSE" && " " + "TRUE" == " TRUE";
  }

  lemma TruthsThen(s: seq<byte>)
    requires s != []
    ensures var b, d, more := s[0], Truths(s), Truths(s[1..]);
            && Held(d) == [if b == 0 then "0" else "1"] + Held(more)
            && Logged(d) == [if b == 0 then "FALSE" else "TRUE"] + Logged(more)
            && Written(d) == [if b == 0 then "F" else "T"] + Written(more)
  {
  }

  lemma {:induction false} BinaryHeld(g: FloatText, s: seq<byte>)
    ensures var d := Binary(s); ValuesAs(g, Hex, s, Held(d), Logged(d), Written(d))
    decreases |s|
  {
    hide ValuesAs, Decimal, TwoDigits, HexText, Held, Logged, Written, ValueText, LogValue, JoinedValue;
    if s == [] {
      NothingHeld(g, Hex);
      NoBytes();
    } else {
      var b, more := s[0], Binary(s[1..]);
      BinaryHeld(g, s[1..]);
      OneHeld(g, b);
      OneMoreValue(g, Hex, [b], s[1..], Decimal(b), Held(more), TwoDigits(b) + " (" + Decimal(b) + ")", Logged(more),
                   TwoDigits(b), Written(more));
      assert s == [b] + s[1..];
      BytesThen(s);
    }
  }

  lemma NoBytes()
    ensures var d := Binary([]); Held(d) == [] && Logged(d) == [] && Written(d) == []
  {
  }

  lemma OneHeld(g: FloatText, b: byte)
    ensures ValueText(g, Hex, [b]) == Decimal(b) && JoinedValue(g, Hex, [b]) == TwoDigits(b)
    ensures LogValue(g, Hex, [b]) == " " + (TwoDigits(b) + " (" + Decimal(b) + ")")
  {
    hide Decimal, TwoDigits, HexText;
    HexTwoDigits(b);
    OneByte([b]);
  }

  lemma BytesThen(s: seq<byte>)
    requires s != []
    ensures var b, d, more := s[0], Binary(s), Binary(s[1..]);
            && Held(d) == [Decimal(b)] + Held(more)
            && Logged(d) == [TwoDigits(b) + " (" + Decimal(b) + ")"] + Logged(more)
            && Written(d) == [TwoDigits(b)] + Written(more)
  {
    hide Decimal, TwoDigits;
  }

  lemma DatumHeld(g: FloatText, d: Datum)
    requires Sound(d) && !d.Group? && !d.Text?
    ensures ValuesAs(g, FormatOf(d), DataOf(d), Held(d), Logged(d), Written(d))
  {
    hide ValuesAs, Held, StoredNumbers;
    match d
    case Truths(s) => TruthsHeld(g, s);
    case Binary(s) => BinaryHeld(g, s);
    case Ints(f, vs) => NumbersHeld(g, f, vs);
  }

  // ---------------------------------------------------------------- the variables and the line of an item

  lemma {:induction false} IndexedEach(name: string, i: nat, texts: seq<string>)
    ensures |Indexed(name, true, i, texts)| == |texts|
    ensures forall k :: 0 <= k < |texts| ==>
              Indexed(name, true, i, texts)[k] == (name + "[" + Decimal(i + k + 1) + "]", texts[k])
    decreases |texts|
  {
    hide Decimal, Indexed, Bracketed;
    if texts == [] {
      NoneIndexed(name, true, i);
    } else {
      var more := texts[1..];
      IndexedEach(name, i + 1, more);
      assert texts == [texts[0]] + more;
      IndexedStep(name, true, i, texts[0], more);
      BracketedName(name, i + 1);
      var rest := Indexed(name, true, i + 1, more);
      forall k | 0 < k < |texts|
        ensures Indexed(name, true, i, texts)[k] == (name + "[" + Decimal(i + k + 1) + "]", texts[k])
      {
        assert Indexed(name, true, i, texts)[k] == rest[k - 1] && i + 1 + (k - 1) + 1 == i + k + 1;
      }
    }
  }

  lemma BracketedName(name: string, i: nat)
    ensures name + Bracketed(i) == name + "[" + Decimal(i) + "]"
  {
    hide Decimal;
  }

  lemma {:induction false} HexTextsStrung(s: seq<byte>)
    ensures HexTexts(s) == Strung("", Written(Binary(s)), "")
    decreases |s|
  {
    hide HexText, TwoDigits;
    if s != [] {
      var front, b := s[..|s| - 1], s[|s| - 1];
      HexTextsStrung(front);
      HexTwoDigits(b);
      assert Written(Binary(s)) == Written(Binary(front)) + [TwoDigits(b)];
      StrungLast(Written(Binary(front)), TwoDigits(b));
    }
  }

  lemma {:induction false} StrungLast(texts: seq<string>, t: string)
    ensures Strung("", texts + [t], "") == Strung("", texts, "") + t
    decreases |texts|
  {
    if texts != [] {
      assert (texts + [t])[0] == texts[0] && (texts + [t])[1..] == texts[1..] + [t];
      StrungLast(texts[1..], t);
    }
  }

  lemma DatumSize(d: Datum)
    requires Sound(d) && !d.Group? && !d.Text?
    ensures |DataOf(d)| == ValueSize(FormatOf(d)) * |Held(d)|
    ensures IsArray(FormatOf(d), |DataOf(d)|) <==>
              |Held(d)| > 1 || (|Held(d)| == 1 && OneByteNumbers(d))
    ensures |DataOf(d)| == 0 <==> Held(d) == []
    ensures |DataOf(d)| % ValueSize(FormatOf(d)) == 0
  {
    var k, n := ValueSize(FormatOf(d)), |Held(d)|;
    if n > 1 { assert k * n > k; }
    DivUnique(k * n, k, n, 0);
  }

  lemma DatumReported(g: FloatText, prefix: string, path: seq<nat>, d: Datum)
    requires Sound(d) && !d.Group?
    ensures var ev, name := Item(path, FormatOf(d), |DataOf(d)|, DataOf(d)), PathName(prefix, path);
            && EventVars(g, prefix, ev, true) == DatumVars(name, d)
            && EventVars(g, prefix, ev, false) == DatumVar(name, d)
            && Line(g, prefix, ev) == Padded(prefix, path) + DatumText(d)
  {
    hide PathName, Padded, ValuesAs, Held, Logged, Written, Values, LogValues, JoinedValues, IsArray, Indexed, HexTexts,
         Strung, FormatText, StandardWord, StoredNumbers;
    if !d.Text? {
      DatumHeld(g, d);
      assert Values(g, FormatOf(d), DataOf(d)) == Held(d)
             && LogValues(g, FormatOf(d), DataOf(d)) == Strung(" ", Logged(d), "")
             && JoinedValues(g, FormatOf(d), DataOf(d)) == Strung("", Written(d), " ") by { ValuesMean(g, d); }
      DatumSize(d);
      WordFull(FormatOf(d));
      VarsReported(g, PathName(prefix, path), d);
    }
  }

  lemma ValuesMean(g: FloatText, d: Datum)
    requires Sound(d) && !d.Group? && !d.Text?
    requires ValuesAs(g, FormatOf(d), DataOf(d), Held(d), Logged(d), Written(d))
    ensures Values(g, FormatOf(d), DataOf(d)) == Held(d)
    ensures LogValues(g, FormatOf(d), DataOf(d)) == Strung(" ", Logged(d), "")
    ensures JoinedValues(g, FormatOf(d), DataOf(d)) == Strung("", Written(d), " ")
  {
    hide Values, LogValues, JoinedValues;
  }

  lemma WordFull(f: Format)
    requires Real(f)
    ensures FormatText(f) == StandardWord(f)
  {
  }

  lemma VarsReported(g: FloatText, name: string, d: Datum)
    requires Sound(d) && !d.Group? && !d.Text? && Values(g, FormatOf(d), DataOf(d)) == Held(d)
    ensures ItemVars(g, name, FormatOf(d), DataOf(d), |DataOf(d)|) == DatumVars(name, d)
  {
    hide Held, Written, Values, IsArray, Indexed, HexTexts, Strung, Decimal, StoredNumbers;
    DatumSize(d);
    var texts, f, s := Held(d), FormatOf(d), DataOf(d);
    var vars := ItemVars(g, name, f, s, |s|);
    if texts == [] {
      assert Indexed(name, IsArray(f, |s|), 0, []) == [] by { NoneIndexed(name, IsArray(f, |s|), 0); }
      assert vars == [(name, "")];
    } else if IsArray(f, |s|) {
      IndexedEach(name, 0, texts);
      assert Indexed(name, true, 0, texts) == Each(name, texts);
      if d.Binary? { HexTextsStrung(d.bs); }
      var hex := if d.Binary? then [(name + "[]", Strung("", Written(d), ""))] else [];
      assert vars == Each(name, texts) + hex + [(name, "ARRAY"), (name + "[0]", Decimal(|texts|))];
    } else {
      assert texts == [texts[0]];
      assert Indexed(name, false, 0, texts) == [(name, texts[0])] by { OneIndexed(name, texts[0]); }
      assert vars == [(name, texts[0])];
    }
  }

  lemma NoneIndexed(name: string, array_: bool, i: nat)
    ensures Indexed(name, array_, i, []) == []
  {
  }

  lemma OneIndexed(name: string, text: string)
    ensures Indexed(name, false, 0, [text]) == [(name, text)]
  {
    assert [text][1..] == [];
    assert Indexed(name, false, 1, [text][1..]) == [];
  }

  // ---------------------------------------------------------------- whole messages

  lemma {:induction false} LogAppend(g: FloatText, prefix: string, a: seq<Event>, b: seq<Event>)
    ensures Log(g, prefix, a + b) == Log(g, prefix, a) + Log(g, prefix, b)
    ensures forall x :: AllVars(g, prefix, a + b, x) == AllVars(g, prefix, a, x) + AllVars(g, prefix, b, x)
    decreases |b|
  {
    hide Line, EventVars;
    if b == [] {
      assert a + b == a;
    } else {
      var front, ev := b[..|b| - 1], b[|b| - 1];
      assert (a + b)[..|a + b| - 1] == a + front;
      LogAppend(g, prefix, a, front);
    }
  }

  lemma OneEvent(g: FloatText, prefix: string, ev: Event)
    ensures Log(g, prefix, [ev]) == Line(g, prefix, ev)
    ensures forall x :: AllVars(g, prefix, [ev], x) == EventVars(g, prefix, ev, x)
  {
    hide Line, EventVars;
    NothingYet(g, prefix);
    assert [ev][..0] == [];
  }

  lemma NameSteps(prefix: string, path: seq<nat>, i: nat)
    ensures PathName(prefix, path + [i + 1]) == NameIn(PathName(prefix, path), i)
  {
    hide Decimal;
    assert (path + [i + 1])[..|path|] == path;
  }

  lemma {:induction false} SpacesBlank(n: int)
    ensures Spaces(n) == Blank(n)
    decreases if n < 0 then 0 else n
  {
    if n > 0 {
      SpacesBlank(n - 1);
      assert Blank(n) == [' '] + Blank(n - 1);
    }
  }

  lemma PaddedColumn(prefix: string, path: seq<nat>)
    ensures Padded(prefix, path) == InColumn(PathName(prefix, path), |path|)
  {
    hide PathName;
    SpacesBlank(Column(|path|) - |PathName(prefix, path)|);
  }

  lemma {:induction false} MessageTold(g: FloatText, prefix: string, items: seq<Datum>, path: seq<nat>, i: nat)
    requires AllSound(items)
    ensures var events, name := Preorder(NodesOf(items), path, i), PathName(prefix, path);
            && Log(g, prefix, events) == MessageLog(name, |path|, items, i)
            && forall x :: AllVars(g, prefix, events, x) == MessageVars(name, items, i, x)
    decreases items
  {
    hide Log, AllVars, Line, EventVars, DatumVars, DatumVar, DatumText, PathName, Padded, NodeEvents, Sound, NodeOf,
         NameIn, InColumn, Blank;
    if items == [] {
      NothingYet(g, prefix);
    } else {
      var d, here := items[0], path + [i + 1];
      var first, rest := NodeEvents(NodeOf(d), here), Preorder(NodesOf(items[1..]), path, i + 1);
      assert NodesOf(items)[1..] == NodesOf(items[1..]);
      MessageTold(g, prefix, items[1..], path, i + 1);
      LogAppend(g, prefix, first, rest);
      NameSteps(prefix, path, i);
      if d.Group? {
        assert AllSound(d.items) && NodeOf(d) == Branch(NodesOf(d.items)) by { GroupParts(d); }
        MessageTold(g, prefix, d.items, here, 0);
        GroupTold(g, prefix, d.items, here);
      } else {
        LeafTold(g, prefix, d, here);
      }
    }
  }

  lemma GroupParts(d: Datum)
    requires Sound(d) && d.Group?
    ensures AllSound(d.items) && NodeOf(d) == Branch(NodesOf(d.items))
  {
  }

  lemma LeafTold(g: FloatText, prefix: string, d: Datum, here: seq<nat>)
    requires Sound(d) && !d.Group? && here != []
    ensures var events, name := NodeEvents(NodeOf(d), here), PathName(prefix, here);
            && Log(g, prefix, events) == InColumn(name, |here|) + DatumText(d)
            && AllVars(g, prefix, events, true) == DatumVars(name, d)
            && AllVars(g, prefix, events, false) == DatumVar(name, d)
  {
    hide Log, AllVars, Line, EventVars, DatumVars, DatumVar, DatumText, PathName, Padded, StoredNumbers, InColumn;
    PaddedColumn(prefix, here);
    var ev := Item(here, FormatOf(d), |DataOf(d)|, DataOf(d));
    OneEvent(g, prefix, ev);
    DatumReported(g, prefix, here, d);
  }

  lemma GroupTold(g: FloatText, prefix: string, inner: seq<Datum>, here: seq<nat>)
    requires AllSound(inner) && here != []
    requires var events, name := Preorder(NodesOf(inner), here, 0), PathName(prefix, here);
             && Log(g, prefix, events) == MessageLog(name, |here|, inner, 0)
             && forall x :: AllVars(g, prefix, events, x) == MessageVars(name, inner, 0, x)
    ensures var events, name := NodeEvents(Branch(NodesOf(inner)), here), PathName(prefix, here);
            && Log(g, prefix, events)
               == (if inner == [] then InColumn(name, |here|) + "<L 0>\n"
                   else (InColumn(name, |here|) + "<L " + Decimal(|inner|) + "\n")
                        + (MessageLog(name, |here|, inner, 0) + (Blank(3 * |here| + 30) + ">\n")))
            && forall x :: AllVars(g, prefix, events, x) == [(name, Decimal(|inner|))] + MessageVars(name, inner, 0, x)
  {
    hide Log, AllVars, PathName, Decimal, MessageLog, MessageVars, InColumn, Blank, EventVars, Line, Preorder, NodesOf,
         NodeEvents;
    var nodes := NodesOf(inner);
    var head, body, closed := Opened(here, |nodes|), Preorder(nodes, here, 0), Closed(|here| - 1);
    HeadTold(g, prefix, here, |nodes|);
    GroupEvents(nodes, here);
    if inner == [] {
      NoMessage(PathName(prefix, here));
    } else {
      CloseTold(g, prefix, here);
      LogAppend(g, prefix, body, [closed]);
      LogAppend(g, prefix, [head], body + [closed]);
      forall x ensures AllVars(g, prefix, body + [closed], x) == AllVars(g, prefix, body, x) {
        assert AllVars(g, prefix, body, x) + [] == AllVars(g, prefix, body, x);
      }
    }
  }

  lemma GroupEvents(nodes: seq<Node>, here: seq<nat>)
    requires here != []
    ensures NodeEvents(Branch(nodes), here)
         == if nodes == [] then [Opened(here, 0)]
            else [Opened(here, |nodes|)] + (Preorder(nodes, here, 0) + [Closed(|here| - 1)])
  {
    if nodes == [] { assert Preorder(nodes, here, 0) == []; }
  }

  /** The line and the variable of a list. */
  lemma HeadTold(g: FloatText, prefix: string, here: seq<nat>, n: nat)
    ensures var ev, name := Opened(here, n), PathName(prefix, here);
            && Log(g, prefix, [ev]) == (if n == 0 then InColumn(name, |here|) + "<L 0>\n"
                                        else InColumn(name, |here|) + "<L " + Decimal(n) + "\n")
            && forall x :: AllVars(g, prefix, [ev], x) == [(name, Decimal(n))]
  {
    hide Log, AllVars, PathName, Padded, Decimal, InColumn;
    OneEvent(g, prefix, Opened(here, n));
    PaddedColumn(prefix, here);
    if n == 0 { ZeroDecimal(); }
  }

  lemma CloseTold(g: FloatText, prefix: string, here: seq<nat>)
    requires here != []
    ensures var ev := Closed(|here| - 1);
            Log(g, prefix, [ev]) == Blank(3 * |here| + 30) + ">\n" && forall x :: AllVars(g, prefix, [ev], x) == []
  {
    hide Log, AllVars, Spaces, Blank;
    OneEvent(g, prefix, Closed(|here| - 1));
    SpacesBlank(Column(|here|));
  }

  lemma ZeroDecimal()
    ensures Decimal(0) == "0"
  {
  }

  lemma NoMessage(name: string)
    ensures forall x :: MessageVars(name, [], 0, x) == []
  {
  }

  lemma {:induction false} NodesFit(items: seq<Datum>)
    requires AllSound(items)
    ensures AllFit(NodesOf(items))
    decreases items
  {
    hide Sound, NodeOf;
    if items != [] {
      NodeFits(items[0]);
      NodesFit(items[1..]);
      assert NodesOf(items)[1..] == NodesOf(items[1..]);
    }
  }

  lemma {:induction false} NodeFits(d: Datum)
    requires Sound(d)
    ensures Fits(NodeOf(d))
    decreases d
  {
    match d
    case Group(items) => NodesFit(items);
    case Text(_) =>
    case _ => DatumSize(d);
  }

  /** Both decoders on the encoding of a message of values: the code 0, and a log and variables that hold
      the values themselves, numbers in decimal with their sign, truth values, characters and bytes in
      hexadecimal, under the names of their places. */
  lemma DecodersTell(g: FloatText, prefix: string, items: seq<Datum>, arrays: bool, ret: Return, log: string,
                     vars: Vars)
    requires AllSound(items) && AllRoomy(DecoderRoom(prefix), NodesOf(items), [], 0)
             && |EncodedAll(NodesOf(items))| < TWO_32
    requires Reports(g, prefix, EncodedAll(NodesOf(items)), arrays, ret, log, vars)
    ensures ret == Returned(0) && log == MessageLog(prefix, 0, items, 0)
    ensures vars == MessageVars(prefix, items, 0, arrays)
  {
    hide Reports, Log, AllVars, MessageLog, MessageVars, AllRoomy;
    NodesFit(items);
    ReportsPreorder(g, prefix, NodesOf(items), arrays, ret, log, vars);
    MessageTold(g, prefix, items, [], 0);
  }

  /** A byte that begins an item of no known format ends both decoders with the code 1; the items before
      it are reported as they are. */
  lemma DecodersStop(g: FloatText, prefix: string, items: seq<Datum>, c: byte, more: seq<byte>, arrays: bool,
                     ret: Return, log: string, vars: Vars)
    requires AllSound(items) && AllRoomy(DecoderRoom(prefix), NodesOf(items), [], 0)
             && |EncodedAll(NodesOf(items))| < TWO_32 - 2 && DecoderRoom(prefix)([|items| + 1])
    requires c >= 4 && (forall f :: Real(f) ==> c / 4 != StandardNumber(f)) && LengthBytes(c) <= |more|
    requires Reports(g, prefix, EncodedAll(NodesOf(items)) + ([c] + more), arrays, ret, log, vars)
    ensures ret == Returned(1) && log == MessageLog(prefix, 0, items, 0)
    ensures vars == MessageVars(prefix, items, 0, arrays)
  {
    hide Reports, Log, AllVars, MessageLog, MessageVars, AllRoomy, KnownOf, LengthBytes, DecoderRoom, StandardNumber;
    NodesFit(items);
    KnownExactly(c - c % 4);
    StopsAtUnknown(DecoderRoom(prefix), NodesOf(items), c, more);
    UnknownReported(g, prefix, EncodedAll(NodesOf(items)) + ([c] + more), arrays, ret, log, vars);
    MessageTold(g, prefix, items, [], 0);
  }

  lemma UnknownReported(g: FloatText, prefix: string, b: seq<byte>, arrays: bool, ret: Return, log: string, vars: Vars)
    requires Reports(g, prefix, b, arrays, ret, log, vars) && Walked(b, DecoderRoom(prefix), Start()).Unknown?
    ensures var w := Walked(b, DecoderRoom(prefix), Start()).w;
            ret == Returned(1) && log == Log(g, prefix, w.out) && vars == AllVars(g, prefix, w.out, arrays)
  {
    hide Walked, Log, AllVars;
  }
}
