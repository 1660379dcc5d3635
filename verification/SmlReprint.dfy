/** What `make_log` prints of a message encodes to the same message. */
module SmlReprint {
  import opened Tokens
  import opened Flow
  import opened Bytes
  import opened Machine
  import opened Numerals
  import opened SecsItems
  import opened SecsTree
  import opened SecsWalk
  import opened SecsRoundTrip
  import opened SecsText
  import opened SmlEncode
  import opened SmlTree
  import opened SmlPasses
  import opened SmlTheorem
  import opened SmlPrint

  // ---------------------------------------------------------------- one value

  /** The number printed for a value. */
  function Shown(f: Format, v: seq<byte>): int
    requires f.Unsigned? || f.Signed?
    requires |v| == ValueSize(f)
  {
    if f.Signed? && f.w != W1 then TwosComplement(Bytes.Number(v), ValueSize(f)) else Bytes.Number(v)
  }

  /** A number in two's complement is stored as its bytes again. */
  lemma StoredBack(f: Format, v: seq<byte>)
    requires (f.Unsigned? || f.Signed?) && |v| == ValueSize(f)
    ensures -TWO_63 <= Shown(f, v) < TWO_64 && Stored(Shown(f, v), ValueSize(f)) == v
    ensures f.Unsigned? ==> Shown(f, v) >= 0
    ensures f.Signed? && f.w != W8 ==> -TWO_31 <= Shown(f, v) < TWO_31
  {
    Powers();
    NumberBound(v);
    BigEndianOf(v);
    var n := Bytes.Number(v);
    if Shown(f, v) < 0 {
      var k := ValueSize(f);
      var q := if k == 2 then 0x1_0000_0000_0000 - 1 else if k == 4 then TWO_32 - 1 else 0;
      assert n - Power(256, k) + TWO_64 == n + q * Power(256, k);
      BigEndianHigh(n, q, k);
    }
  }

  lemma NumberConverts(f: Format, n: int, k: nat)
    requires (f.Unsigned? && 0 <= n < TWO_64) || (f.Signed? && -TWO_31 <= n < TWO_31)
    requires k == ValueSize(f)
    ensures Numbers(f, SignedDecimal(n)) == Converted(Stored(n, k), true)
  {
    hide Stored, ReadUnsigned, ReadSigned;
    var s := SignedDecimal(n);
    if f.Unsigned? { UnsignedRoundTrip(n); } else { SignedRoundTrip(n); }
    assert s[|s|..] == "";
    assert Numbers(f, "") == Converted([], true);
    assert Stored(n, k) + [] == Stored(n, k);
  }

  /** A value of an item that can be printed. */
  predicate Readable(f: Format, v: seq<byte>) {
    && |v| == ValueSize(f)
    && match f
       case Boolean => v[0] <= 1
       case Unsigned(_) => true
       case Signed(w) => w == W8 ==> -TWO_31 <= TwosComplement(Bytes.Number(v), 8) < TWO_31
       case _ => false
  }

  /** The text the encoder reads for a printed value. */
  function Reread(f: Format, v: seq<byte>): string
    requires Readable(f, v)
  {
    if f == Boolean then (if v[0] == 0 then "FALSE" else "TRUE") else SignedDecimal(Shown(f, v))
  }

  lemma ValueConverts(fl: Floats, f: Format, v: seq<byte>)
    requires Readable(f, v)
    ensures Convert(fl, f, Reread(f, v)) == Converted(v, true)
  {
    hide Shown, Stored, Numbers;
    if f == Boolean {
      assert v == [v[0]];
    } else {
      StoredBack(f, v);
      if f == Signed(W8) { LongShown(f, v); }
      NumberConverts(f, Shown(f, v), ValueSize(f));
    }
  }

  lemma LongShown(f: Format, v: seq<byte>)
    requires Readable(f, v) && f == Signed(W8)
    ensures -TWO_31 <= Shown(f, v) < TWO_31
  {
  }

  lemma ValueText1(l: Lang, f: Format, v: seq<byte>, more: seq<Token>, env: Env)
    requires Readable(f, v) && (more != [] ==> more[|more| - 1].kind.Value?)
             && (forall k :: 0 <= k < |more| ==> more[k].kind.Value? || more[k] == Angle(Minus))
    ensures var toks := Lexed("", Printed(f, v)) + more;
            SmlTree.Texts(l, f, toks, env) == [Reread(f, v)] + SmlTree.Texts(l, f, more, env)
  {
    hide Decimal, Shown, SmlTree.Texts;
    var toks := Lexed("", Printed(f, v)) + more;
    TextsStep(l, f, toks, env);
    if f != Boolean { ShownPrinted(f, v); }
    assert toks[Taken(f, toks)..] == more;
  }

  lemma ShownPrinted(f: Format, v: seq<byte>)
    requires Readable(f, v) && f != Boolean
    ensures Printed(f, v) == Num(Shown(f, v)) && (f.Unsigned? ==> Shown(f, v) >= 0)
  {
  }

  // ---------------------------------------------------------------- one item

  predicate AllReadable(f: Format, s: seq<byte>)
    decreases |s|
  {
    |s| < ValueSize(f) || (Readable(f, s[..ValueSize(f)]) && AllReadable(f, s[ValueSize(f)..]))
  }

  lemma {:induction false} PrintableReadable(f: Format, s: seq<byte>)
    requires Printable(Leaf(f, s)) && f != Ascii
    ensures AllReadable(f, s) && |s| % ValueSize(f) == 0
    decreases |s|
  {
    var n := ValueSize(f);
    if |s| >= n {
      LessValues(|s|, n);
      PrintableReadable(f, s[n..]);
    }
  }

  lemma LessValues(a: nat, n: nat)
    requires n > 0 && a >= n && a % n == 0
    ensures (a - n) % n == 0
  {
    ModMore(a - n, 1, n);
  }

  lemma {:induction false} DataShape(f: Format, s: seq<byte>)
    requires AllReadable(f, s)
    ensures DataTokens(LexedAll("", PrintedValues(f, s)))
    ensures forall t :: t in LexedAll("", PrintedValues(f, s)) ==> t.kind != Value(Variable)
    decreases |s|
  {
    hide Lexed, Printed, DataTokens;
    var n := ValueSize(f);
    if |s| >= n {
      ValuesStep(f, s);
      DataShape(f, s[n..]);
      ValueShape(f, s[..n]);
      ShapeBoth(Lexed("", Printed(f, s[..n])), LexedAll("", PrintedValues(f, s[n..])));
    } else {
      assert DataTokens([]) by { NoShape(); }
      assert LexedAll("", []) == [];
    }
  }

  lemma NoShape()
    ensures DataTokens([])
  {
  }

  lemma ValueShape(f: Format, v: seq<byte>)
    requires Readable(f, v)
    ensures var a := Lexed("", Printed(f, v));
            a != [] && DataTokens(a) && forall t :: t in a ==> t.kind != Value(Variable)
  {
    hide Decimal, Shown, TwosComplement;
  }

  lemma ShapeBoth(a: seq<Token>, b: seq<Token>)
    requires DataTokens(a) && DataTokens(b)
    ensures DataTokens(a + b)
  {
  }

  lemma ValuesStep(f: Format, s: seq<byte>)
    requires |s| >= ValueSize(f)
    ensures LexedAll("", PrintedValues(f, s))
         == Lexed("", Printed(f, s[..ValueSize(f)])) + LexedAll("", PrintedValues(f, s[ValueSize(f)..]))
  {
    hide Printed, LexedAll, Lexed, PrintedValues;
    SameLexed("", f, s[..ValueSize(f)]);
    var v, more := Printed(f, s[..ValueSize(f)]), PrintedValues(f, s[ValueSize(f)..]);
    assert PrintedValues(f, s) == [Gap(1)] + ([v] + more) by { NextPrinted(f, s); }
    LexedCons("", Gap(1), [v] + more);
    LexedCons("", v, more);
    assert [] + LexedAll("", [v] + more) == LexedAll("", [v] + more);
  }

  lemma NextPrinted(f: Format, s: seq<byte>)
    requires |s| >= ValueSize(f)
    ensures PrintedValues(f, s) == [Gap(1)] + ([Printed(f, s[..ValueSize(f)])] + PrintedValues(f, s[ValueSize(f)..]))
  {
    hide Printed;
    var v, more := Printed(f, s[..ValueSize(f)]), PrintedValues(f, s[ValueSize(f)..]);
    assert [Gap(1), v] + more == [Gap(1)] + ([v] + more);
  }

  /** The data of a printed item are its bytes. */
  lemma {:induction false} DataValue(l: Lang, fl: Floats, f: Format, s: seq<byte>, env: Env)
    requires AllReadable(f, s) && |s| % ValueSize(f) == 0
    ensures ItemValue(fl, f, SmlTree.Texts(l, f, LexedAll("", PrintedValues(f, s)), env)) == Some(s)
    decreases |s|
  {
    hide Printed, Reread, Readable, Convert, LexedAll, Lexed, PrintedValues, ItemValue, SmlTree.Texts, DataTokens;
    var n := ValueSize(f);
    if |s| >= n {
      var v, more := s[..n], LexedAll("", PrintedValues(f, s[n..]));
      LessValues(|s|, n);
      ValuesStep(f, s);
      DataEnds(f, s[n..]);
      DataValue(l, fl, f, s[n..], env);
      ValueText1(l, f, v, more, env);
      ValueConverts(fl, f, v);
      var texts := SmlTree.Texts(l, f, LexedAll("", PrintedValues(f, s)), env);
      TextsValue(fl, f, Reread(f, v), SmlTree.Texts(l, f, more, env), v, s[n..]);
      assert v + s[n..] == s;
    } else {
      NoData1(l, fl, f, s, env);
    }
  }

  lemma TextsValue(fl: Floats, f: Format, text: string, more: seq<string>, v: seq<byte>, rest: seq<byte>)
    requires Convert(fl, f, text) == Converted(v, true) && ItemValue(fl, f, more) == Some(rest)
    ensures ItemValue(fl, f, [text] + more) == Some(v + rest)
  {
    hide Convert;
    assert ([text] + more)[1..] == more;
  }

  lemma DataEnds(f: Format, s: seq<byte>)
    requires AllReadable(f, s)
    ensures var t := LexedAll("", PrintedValues(f, s));
            && (t != [] ==> t[|t| - 1].kind.Value?)
            && forall k :: 0 <= k < |t| ==> t[k].kind.Value? || t[k] == Angle(Minus)
  {
    hide LexedAll, PrintedValues;
    DataShape(f, s);
  }

  lemma NoData1(l: Lang, fl: Floats, f: Format, s: seq<byte>, env: Env)
    requires |s| < ValueSize(f) && |s| % ValueSize(f) == 0
    ensures ItemValue(fl, f, SmlTree.Texts(l, f, LexedAll("", PrintedValues(f, s)), env)) == Some(s)
  {
    hide Printed;
    assert s == [];
    assert PrintedValues(f, []) == [] && LexedAll("", []) == [];
  }

  lemma FormatWords(f: Format)
    requires f != Ascii && f != Hex && !f.Float?
    ensures WordOf(FormatText(f)) == ItemWord(f) && WordOf("A") == ItemWord(Ascii) && WordOf("L") == ListWord
  {
  }

  lemma LeafMeans(l: Lang, fl: Floats, line: string, f: Format, s: seq<byte>, env: Env)
    requires Printable(Leaf(f, s))
    ensures ScopedElement(l, {}, {}, TreeOf(line, Leaf(f, s)))
    ensures ElementNodes(l, fl, 0, TreeOf(line, Leaf(f, s)), env) == Some([Leaf(f, s)])
  {
    hide LexedAll, PrintedValues, WordOf, FormatText, Convert;
    FormatWords(Boolean);
    if f == Ascii {
      AsciiMeans(l, fl, s, env);
    } else {
      FormatWords(f);
      PrintableReadable(f, s);
      DataShape(f, s);
      DataValue(l, fl, f, s, env);
    }
  }

  lemma AsciiMeans(l: Lang, fl: Floats, s: seq<byte>, env: Env)
    ensures DataTokens(DataOf(Ascii, s)) && DataOf(Ascii, s)[0].kind == Value(Str)
    ensures ItemValue(fl, Ascii, SmlTree.Texts(l, Ascii, DataOf(Ascii, s), env)) == Some(s)
  {
    var t := Token(Value(Str), CharsOf(s));
    assert DataOf(Ascii, s) == [t] && [t][1..] == [];
    assert SmlTree.Texts(l, Ascii, [t], env) == [CharsOf(s)];
    assert SmlTree.Texts(l, Ascii, DataOf(Ascii, s), env) == [CharsOf(s)];
    assert [CharsOf(s)][1..] == [];
    assert AsciiBytes(CharsOf(s)) == s;
    assert Convert(fl, Ascii, CharsOf(s)) == Converted(s, true);
    assert ItemValue(fl, Ascii, []) == Some([]) && s + [] == s;
    assert ItemValue(fl, Ascii, [CharsOf(s)][1..]) == Some([]);
    assert ItemValue(fl, Ascii, [CharsOf(s)]) == Some(s);
  }

  // ---------------------------------------------------------------- messages

  lemma LineScoped(l: Lang, end: bool, text: string, rest: Forest)
    ensures Scoped(l, {}, {}, Elem(LineEnds(end, text), rest)) == Scoped(l, {}, {}, rest)
  {
    assert ScopedElement(l, {}, {}, LineEnds(end, text));
  }

  lemma EndMeans(l: Lang, fl: Floats, line: string, rest: Forest, env: Env)
    ensures Elements(l, fl, 0, EndLine(line, rest), env) == Elements(l, fl, 0, rest, env)
    ensures Scoped(l, {}, {}, EndLine(line, rest)) == Scoped(l, {}, {}, rest)
  {
    var r := Elements(l, fl, 0, rest, env);
    assert r.Some? ==> [] + r.value == r.value;
    var e2 := Elem(LineEnds(false, line), rest);
    assert Elements(l, fl, 0, e2, env) == r;
    LineScoped(l, false, line, rest);
    LineScoped(l, true, "", e2);
    assert EndLine(line, rest) == Elem(LineEnds(true, ""), e2);
  }

  lemma {:induction false} TreeMeans(l: Lang, fl: Floats, line: string, n: Node, env: Env)
    requires Printable(n)
    ensures ScopedElement(l, {}, {}, TreeOf(line, n)) && ElementNodes(l, fl, 0, TreeOf(line, n), env) == Some([n])
    decreases n
  {
    hide WordOf, EndLine;
    match n
    case Leaf(f, s) => LeafMeans(l, fl, line, f, s, env);
    case Branch(children) =>
      FormatWords(Boolean);
      EndMeans(l, fl, line, ForestOf(line, children), env);
      ForestMeans(l, fl, line, children, env);
  }

  lemma {:induction false} ForestMeans(l: Lang, fl: Floats, line: string, s: seq<Node>, env: Env)
    requires AllPrintable(s)
    ensures Scoped(l, {}, {}, ForestOf(line, s)) && Elements(l, fl, 0, ForestOf(line, s), env) == Some(s)
    decreases s
  {
    hide Printable, TreeOf, EndLine;
    if s != [] {
      TreeMeans(l, fl, line, s[0], env);
      ForestMeans(l, fl, line, s[1..], env);
      EndMeans(l, fl, line, ForestOf(line, s[1..]), env);
      assert [s[0]] + s[1..] == s;
    }
  }

  /** A message of lists, ASCII, 0/1 booleans and integers that is printed by `make_log` and encoded
      again, from wherever the printed words stand in a program, gives the same bytes. */
  lemma PrintThenEncode(l: Lang, fl: Floats, p: seq<Token>, line: string, s: seq<Node>, st: St, room: Room)
      returns (n: nat, c: EncConfig)
    requires AllPrintable(s) && AllFit(s) && AllRoomy(room, s, [], 0) && |EncodedAll(s)| < TWO_32
    requires var w := Walked(EncodedAll(s), room, Start());
             var toks := if w.Decoded? then LexedAll(line, PrintedAll(w.w.out)) else [];
             At(p, st.idx, toks) && EndsText(p, st.idx + |toks|)
    ensures Walked(EncodedAll(s), room, Start()).Decoded?
    ensures st.idx <= |p| && EncRun(l, fl, p, n, Working(Enc(st, [], Emitting))) == c
    ensures c.Stopped? && c.how == Complete && c.e.out == EncodedAll(s)
  {
    hide AllPrintable, AllFit, AllRoomy, Walked, EncodedAll, LexedAll, PrintedAll, At, EncRun, Elements, Scoped,
      ForestOf, ForestToks,
         Preorder, Start;
    DecodesEncoding(room, s);
    NodesLexed(line, s, [], 0);
    ForestMeans(l, fl, line, s, st.env);
    n, c := EncodesMeaning(l, fl, p, 0, {}, ForestOf(line, s), st, s);
  }
}
