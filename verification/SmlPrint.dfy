/** `make_log` (source/secs_encode_sml.c:1028-1412) prints a message as message text again, and the
    encoder turns that text back into the same bytes. The text is a sequence of words with their
    spelling; how the script reader splits a text into these words is not part of the model. */
module SmlPrint {
  import opened Tokens
  import opened ExpressionTree
  import opened Bytes
  import opened Machine
  import opened Numerals
  import opened SecsItems
  import opened SecsTree
  import opened SecsWalk
  import opened SecsRoundTrip
  import opened SecsText
  import opened SmlTree

  datatype Lexeme =
    | Open | Close | Newline
    | Gap(width: nat)
    | Word(s: string)
    | Num(n: int)
    | Quoted(s: string)
    | Hexed(b: byte)

  function Spelling(x: Lexeme): string {
    match x
    case Open => "<"
    case Close => ">"
    case Newline => "\n"
    case Gap(n) => Spaces(n)
    case Word(s) => s
    case Num(n) => SignedDecimal(n)
    case Quoted(s) => "\"" + s + "\""
    case Hexed(b) => HexText(b) + " (" + Decimal(b) + ")"
  }

  function Render(xs: seq<Lexeme>): string {
    if xs == [] then "" else Spelling(xs[0]) + Render(xs[1..])
  }

  /** The program tokens of a word; a line end is followed by a line number whose text the encoder
      only reports. */
  function Lexed(line: string, x: Lexeme): seq<Token> {
    match x
    case Open => [Angle(LessThan)]
    case Close => [Angle(GreaterThan)]
    case Newline => [Sign(EndOfLine), Token(LineNumber, line)]
    case Gap(_) => []
    case Word(s) => [Name(s)]
    case Num(n) => if n < 0 then [Angle(Minus), NumberToken(-n)] else [NumberToken(n)]
    case Quoted(s) => [Token(Value(Str), s)]
    case Hexed(b) => [Name(HexText(b)), Sign(OpenParen), NumberToken(b), Sign(CloseParen)]
  }

  function NumberToken(n: nat): Token { Token(Value(ValueType.Number), Decimal(n)) }

  function LexedAll(line: string, xs: seq<Lexeme>): seq<Token> {
    if xs == [] then [] else Lexed(line, xs[0]) + LexedAll(line, xs[1..])
  }

  // ---------------------------------------------------------------- printing

  /** The values of an item: a signed byte is printed without its sign. */
  function Printed(f: Format, s: seq<byte>): Lexeme
    requires |s| == ValueSize(f)
  {
    match f
    case Boolean => Word(if s[0] == 0 then "FALSE" else "TRUE")
    case Hex => Hexed(s[0])
    case Signed(w) => Num(if w == W1 then Bytes.Number(s) else TwosComplement(Bytes.Number(s), w.Size()))
    case _ => Num(Bytes.Number(s))
  }

  function PrintedValues(f: Format, s: seq<byte>): seq<Lexeme>
    decreases |s|
  {
    if |s| < ValueSize(f) then []
    else [Gap(1), Printed(f, s[..ValueSize(f)])] + PrintedValues(f, s[ValueSize(f)..])
  }

  function PrintedItem(f: Format, s: seq<byte>): seq<Lexeme> {
    if f == Ascii then [Open, Word("A"), Gap(1), Quoted(CharsOf(s)), Close, Newline]
    else [Open, Word(FormatText(f))] + PrintedValues(f, s) + [Close, Newline]
  }

  function PrintedEvent(ev: Event): seq<Lexeme> {
    match ev
    case Opened(path, n) =>
      [Gap(Column(|path|)), Open, Word("L")] + (if n > 0 then [Newline] else [Close, Newline])
    case Item(path, f, _, s) => [Gap(Column(|path|))] + PrintedItem(f, s)
    case Closed(l) => [Gap(Column(l + 1)), Close, Newline]
  }

  function PrintedAll(events: seq<Event>): seq<Lexeme> {
    if events == [] then [] else PrintedEvent(events[0]) + PrintedAll(events[1..])
  }

  // ---------------------------------------------------------------- messages that can be read back

  /** Lists, ASCII, 0/1 booleans and integers whose signed values a C `int` holds. */
  predicate Printable(n: Node)
    decreases n
  {
    match n
    case Branch(children) => AllPrintable(children)
    case Leaf(f, s) =>
      && |s| % ValueSize(f) == 0
      && match f
         case Ascii => true
         case Boolean => forall k :: 0 <= k < |s| ==> s[k] <= 1
         case Unsigned(_) => true
         case Signed(w) => w == W8 ==> SmallValues(s)
         case _ => false
  }

  predicate AllPrintable(s: seq<Node>)
    decreases s
  {
    s == [] || (Printable(s[0]) && AllPrintable(s[1..]))
  }

  predicate SmallValues(s: seq<byte>)
    decreases |s|
  {
    |s| < 8 || (-TWO_31 <= TwosComplement(Bytes.Number(s[..8]), 8) < TWO_31 && SmallValues(s[8..]))
  }

  // ---------------------------------------------------------------- the text as a tree

  /** The data of an item. */
  function DataOf(f: Format, s: seq<byte>): seq<Token>
  {
    if f == Ascii then [Token(Value(Str), CharsOf(s))] else LexedAll("", PrintedValues(f, s))
  }

  function TreeOf(line: string, n: Node): Element
    decreases n
  {
    match n
    case Leaf(f, s) => Element.Item(if f == Ascii then "A" else FormatText(f), DataOf(f, s))
    case Branch(children) => List("L", if children == [] then Empty else EndLine(line, ForestOf(line, children)))
  }

  function EndLine(line: string, rest: Forest): Forest {
    Elem(LineEnds(true, ""), Elem(LineEnds(false, line), rest))
  }

  function ForestOf(line: string, s: seq<Node>): Forest
    decreases s
  {
    if s == [] then Empty else Elem(TreeOf(line, s[0]), EndLine(line, ForestOf(line, s[1..])))
  }

  // ---------------------------------------------------------------- the tokens of the text

  lemma {:induction false} LexedAppend(line: string, a: seq<Lexeme>, b: seq<Lexeme>)
    ensures LexedAll(line, a + b) == LexedAll(line, a) + LexedAll(line, b)
    decreases |a|
  {
    hide Lexed;
    if a == [] {
      assert a + b == b;
    } else {
      assert (a + b)[0] == a[0] && (a + b)[1..] == a[1..] + b;
      LexedAppend(line, a[1..], b);
    }
  }

  lemma {:induction false} PrintedAppend(a: seq<Event>, b: seq<Event>)
    ensures PrintedAll(a + b) == PrintedAll(a) + PrintedAll(b)
    decreases |a|
  {
    hide PrintedEvent;
    if a == [] {
      assert a + b == b;
    } else {
      assert (a + b)[0] == a[0] && (a + b)[1..] == a[1..] + b;
      PrintedAppend(a[1..], b);
    }
  }

  function EventToks(line: string, events: seq<Event>): seq<Token> { LexedAll(line, PrintedAll(events)) }

  lemma ToksAppend(line: string, a: seq<Event>, b: seq<Event>)
    ensures EventToks(line, a + b) == EventToks(line, a) + EventToks(line, b)
  {
    hide PrintedAll, LexedAll;
    PrintedAppend(a, b);
    LexedAppend(line, PrintedAll(a), PrintedAll(b));
  }

  function Ends(line: string): seq<Token> { [Sign(EndOfLine), Token(LineNumber, line)] }

  lemma OneEvent(line: string, ev: Event)
    ensures EventToks(line, [ev]) == LexedAll(line, PrintedEvent(ev))
  {
    hide PrintedEvent;
    assert [ev][1..] == [];
    assert PrintedAll([ev][1..]) == [] && PrintedEvent(ev) + [] == PrintedEvent(ev);
    assert PrintedAll([ev]) == PrintedEvent(ev);
  }

  lemma LexedCons(line: string, x: Lexeme, xs: seq<Lexeme>)
    ensures LexedAll(line, [x] + xs) == Lexed(line, x) + LexedAll(line, xs)
  {
    assert ([x] + xs)[1..] == xs;
  }

  /** The values of an item hold no line ends, so their tokens are the same in every line. */
  lemma {:induction false} ValuesLexed(line: string, f: Format, s: seq<byte>)
    ensures LexedAll(line, PrintedValues(f, s)) == LexedAll("", PrintedValues(f, s))
    decreases |s|
  {
    hide Lexed, Printed;
    var n := ValueSize(f);
    if |s| >= n {
      var v, more := Printed(f, s[..n]), PrintedValues(f, s[n..]);
      assert [Gap(1), v] + more == [Gap(1)] + ([v] + more);
      LexedCons(line, Gap(1), [v] + more);
      LexedCons(line, v, more);
      LexedCons("", Gap(1), [v] + more);
      LexedCons("", v, more);
      SameLexed(line, f, s[..n]);
      ValuesLexed(line, f, s[n..]);
    }
  }

  lemma SameLexed(line: string, f: Format, v: seq<byte>)
    requires |v| == ValueSize(f)
    ensures Lexed(line, Printed(f, v)) == Lexed("", Printed(f, v)) && Lexed(line, Gap(1)) == Lexed("", Gap(1)) == []
  {
  }

  /** `<`, a word, and what stands between it and the end of the line. */
  lemma AngledLexed(line: string, word: string, inner: seq<Lexeme>)
    ensures LexedAll(line, [Open] + ([Word(word)] + (inner + [Close, Newline])))
         == ([Angle(LessThan)] + ([Name(word)] + (LexedAll(line, inner) + [Angle(GreaterThan)]))) + Ends(line)
  {
    hide LexedAll, Ends;
    var tail := [Close, Newline];
    TailLexed(line);
    LexedAppend(line, inner, tail);
    LexedCons(line, Word(word), inner + tail);
    LexedCons(line, Open, [Word(word)] + (inner + tail));
    var lt, w, x, gt := [Angle(LessThan)], [Name(word)], LexedAll(line, inner), [Angle(GreaterThan)];
    assert lt + (w + (x + (gt + Ends(line)))) == (lt + (w + (x + gt))) + Ends(line);
  }

  lemma ItemLexed(line: string, f: Format, s: seq<byte>)
    ensures LexedAll(line, PrintedItem(f, s)) == ElementToks(TreeOf(line, Leaf(f, s))) + Ends(line)
  {
    hide PrintedValues, LexedAll, Ends, FormatText, CharsOf;
    if f == Ascii {
      var q := Quoted(CharsOf(s));
      assert PrintedItem(f, s) == [Open] + ([Word("A")] + ([Gap(1), q] + [Close, Newline]));
      AngledLexed(line, "A", [Gap(1), q]);
      QuotedLexed(line, CharsOf(s));
    } else {
      assert PrintedItem(f, s) == [Open] + ([Word(FormatText(f))] + (PrintedValues(f, s) + [Close, Newline]));
      AngledLexed(line, FormatText(f), PrintedValues(f, s));
      ValuesLexed(line, f, s);
    }
  }

  lemma QuotedLexed(line: string, t: string)
    ensures LexedAll(line, [Gap(1), Quoted(t)]) == [Token(Value(Str), t)]
  {
    var q := Quoted(t);
    assert [Gap(1), q] == [Gap(1)] + [q] && [q] == [q] + [];
    LexedCons(line, Gap(1), [q]);
    LexedCons(line, q, []);
  }

  lemma TailLexed(line: string)
    ensures LexedAll(line, [Close, Newline]) == [Angle(GreaterThan)] + Ends(line)
    ensures LexedAll(line, [Newline]) == Ends(line)
  {
    assert [Close, Newline] == [Close] + [Newline] && [Newline] == [Newline] + [];
    LexedCons(line, Close, [Newline]);
    LexedCons(line, Newline, []);
  }

  lemma HeadLexed(line: string, path: seq<nat>, n: nat)
    ensures EventToks(line, [Opened(path, n)])
         == [Angle(LessThan), Name("L")] + (if n > 0 then Ends(line) else [Angle(GreaterThan)] + Ends(line))
  {
    hide Ends;
    OneEvent(line, Opened(path, n));
    TailLexed(line);
    var tail := if n > 0 then [Newline] else [Close, Newline];
    assert PrintedEvent(Opened(path, n)) == [Gap(Column(|path|))] + ([Open] + ([Word("L")] + tail));
    LexedCons(line, Word("L"), tail);
    LexedCons(line, Open, [Word("L")] + tail);
    LexedCons(line, Gap(Column(|path|)), [Open] + ([Word("L")] + tail));
  }

  lemma ClosedLexed(line: string, k: nat)
    ensures EventToks(line, [Closed(k)]) == [Angle(GreaterThan)] + Ends(line)
  {
    OneEvent(line, Closed(k));
    TailLexed(line);
    assert PrintedEvent(Closed(k)) == [Gap(Column(k + 1))] + [Close, Newline];
    LexedCons(line, Gap(Column(k + 1)), [Close, Newline]);
  }

  lemma EndsToks(line: string, rest: Forest)
    ensures ForestToks(EndLine(line, rest)) == Ends(line) + ForestToks(rest)
  {
    hide ForestToks;
    var a, b := LineEnds(true, ""), LineEnds(false, line);
    ElemToks(a, Elem(b, rest));
    ElemToks(b, rest);
    assert ElementToks(a) + (ElementToks(b) + ForestToks(rest)) == Ends(line) + ForestToks(rest);
  }

  lemma ElemToks(x: Element, rest: Forest)
    ensures ForestToks(Elem(x, rest)) == ElementToks(x) + ForestToks(rest)
  {
  }

  lemma {:induction false} NodeLexed(line: string, n: Node, path: seq<nat>)
    requires path != []
    ensures EventToks(line, NodeEvents(n, path)) == ElementToks(TreeOf(line, n)) + Ends(line)
    decreases n
  {
    hide Ends, EventToks, PrintedEvent, PrintedItem, ForestToks;
    match n
    case Leaf(f, s) =>
      OneEvent(line, Event.Item(path, f, |s|, s));
      assert PrintedEvent(Event.Item(path, f, |s|, s)) == [Gap(Column(|path|))] + PrintedItem(f, s) by {
        ItemEvent(path, f, s);
      }
      LexedCons(line, Gap(Column(|path|)), PrintedItem(f, s));
      ItemLexed(line, f, s);
    case Branch(children) =>
      if children == [] {
        EmptyLexed(line, path);
      } else {
        NodesLexed(line, children, path, 0);
        BranchLexed(line, children, path);
      }
  }

  lemma EmptyLexed(line: string, path: seq<nat>)
    requires path != []
    ensures EventToks(line, NodeEvents(Branch([]), path)) == ElementToks(TreeOf(line, Branch([]))) + Ends(line)
  {
    hide Ends, EventToks, PrintedEvent, ForestToks;
    HeadLexed(line, path, 0);
    var lt, w, gt := [Angle(LessThan)], [Name("L")], [Angle(GreaterThan)];
    assert [Angle(LessThan), Name("L")] == lt + w;
    assert NodeEvents(Branch([]), path) == [Opened(path, 0)];
    EmptyToks();
    assert [] + gt == gt;
    assert (lt + w) + (gt + Ends(line)) == (lt + (w + gt)) + Ends(line);
  }

  lemma BranchLexed(line: string, children: seq<Node>, path: seq<nat>)
    requires path != [] && children != []
    requires EventToks(line, Preorder(children, path, 0)) == ForestToks(ForestOf(line, children))
    ensures EventToks(line, NodeEvents(Branch(children), path))
            == ElementToks(TreeOf(line, Branch(children))) + Ends(line)
  {
    hide Ends, EventToks, PrintedEvent, ForestToks;
    var inner := Preorder(children, path, 0);
    HeadLexed(line, path, |children|);
    ClosedLexed(line, |path| - 1);
    ToksAppend(line, inner, [Closed(|path| - 1)]);
    ToksAppend(line, [Opened(path, |children|)], inner + [Closed(|path| - 1)]);
    EndsToks(line, ForestOf(line, children));
    var lt, w, gt := [Angle(LessThan)], [Name("L")], [Angle(GreaterThan)];
    assert [Angle(LessThan), Name("L")] == lt + w;
    var f := ForestToks(ForestOf(line, children));
    assert (lt + w) + Ends(line) + (f + (gt + Ends(line))) == (lt + (w + ((Ends(line) + f) + gt))) + Ends(line);
  }

  lemma EmptyToks()
    ensures ForestToks(Empty) == []
  {
  }

  lemma ItemEvent(path: seq<nat>, f: Format, s: seq<byte>)
    ensures PrintedEvent(Event.Item(path, f, |s|, s)) == [Gap(Column(|path|))] + PrintedItem(f, s)
  {
    hide PrintedItem;
  }

  lemma {:induction false} NodesLexed(line: string, s: seq<Node>, path: seq<nat>, i: nat)
    ensures EventToks(line, Preorder(s, path, i)) == ForestToks(ForestOf(line, s))
    decreases s
  {
    hide Ends, EventToks, NodeEvents, TreeOf;
    if s == [] {
      assert EventToks(line, []) == [] by { NoEvents(line); }
    } else {
      var here := NodeEvents(s[0], path + [i + 1]);
      NodeLexed(line, s[0], path + [i + 1]);
      NodesLexed(line, s[1..], path, i + 1);
      ToksAppend(line, here, Preorder(s[1..], path, i + 1));
      EndsToks(line, ForestOf(line, s[1..]));
    }
  }

  lemma NoEvents(line: string)
    ensures EventToks(line, []) == []
  {
  }
}
