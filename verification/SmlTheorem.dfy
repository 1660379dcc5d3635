/** The element count in every list header is the number of items the encoder then emits in that
    list: encoding a message text gives the one encoding of the items it means. */
module SmlTheorem {
  import opened Tokens
  import opened Programs
  import opened ExpressionTree
  import opened Flow
  import opened Structured
  import opened FlowScans
  import opened FlowLoops
  import opened FlowTurns
  import opened Bytes
  import opened Machine
  import opened SecsItems
  import opened SecsTree
  import opened SmlEncode
  import opened SmlTree
  import opened SmlPasses

  // ---------------------------------------------------------------- the layout of a loop

  /** No loop inside `es` uses a name bound around it. */
  lemma {:induction false} ForestCalm(l: Lang, vars: set<string>, bound: set<string>, es: Forest, v: string)
    requires Scoped(l, vars, bound, es) && v in bound
    ensures ScanAll(ForScan(v, false), ForestToks(es)) == Go(ForScan(v, false))
    decreases es, 0
  {
    hide ScanAll, ScanToken, Steady, Fixed, StartsPlain;
    var s := ForScan(v, false);
    if es.Empty? {
      assert ScanAll(s, []) == Go(s) by { InertAll(s, []); }
    } else {
      ElementCalm(l, vars, bound, es.first, v);
      ForestCalm(l, vars, bound, es.rest, v);
      Both(s, s, s, ElementToks(es.first), ForestToks(es.rest));
    }
  }

  lemma {:induction false} ElementCalm(l: Lang, vars: set<string>, bound: set<string>, x: Element, v: string)
    requires ScopedElement(l, vars, bound, x) && v in bound
    ensures ScanAll(ForScan(v, false), ElementToks(x)) == Go(ForScan(v, false))
    decreases x, 0
  {
    hide ScanAll, ScanToken, Steady, Fixed, StartsPlain, HeadToks, NextToks, WordOf, ForestToks;
    var s := ForScan(v, false);
    match x
    case LineEnds(_, _) => InertAll(s, ElementToks(x));
    case Item(word, data) => InertAll(s, ElementToks(x));
    case List(word, elems) =>
      ForestCalm(l, vars, bound, elems, v);
      ListCalm(v, word, ForestToks(elems));
    case Repeat(w, e1, e2, e3, body) =>
      ForestCalm(l, vars, bound + {w}, body, v);
      RepeatCalm(v, w, e1, e2, e3, ForestToks(body));
  }

  lemma ListCalm(v: string, word: string, inner: seq<Token>)
    requires ScanAll(ForScan(v, false), inner) == Go(ForScan(v, false))
    ensures ScanAll(ForScan(v, false), [Angle(LessThan)] + ([Name(word)] + (inner + [Angle(GreaterThan)])))
            == Go(ForScan(v, false))
  {
    hide ScanAll, ScanToken;
    var s := ForScan(v, false);
    InertAll(s, [Angle(GreaterThan)]);
    InertAll(s, [Name(word)]);
    InertAll(s, [Angle(LessThan)]);
    Both(s, s, s, inner, [Angle(GreaterThan)]);
    Both(s, s, s, [Name(word)], inner + [Angle(GreaterThan)]);
    Both(s, s, s, [Angle(LessThan)], [Name(word)] + (inner + [Angle(GreaterThan)]));
  }

  lemma RepeatCalm(v: string, w: string, e1: Expr, e2: Expr, e3: Option<Expr>, inner: seq<Token>)
    requires ScanAll(ForScan(v, false), inner) == Go(ForScan(v, false)) && v != w
    ensures ScanAll(ForScan(v, false), [Sign(For)] + (HeadToks(w, e1, e2, e3) + (inner + NextToks(w))))
            == Go(ForScan(v, false))
  {
    hide ScanAll, ScanToken, HeadToks, NextToks;
    var s := ForScan(v, false);
    Single(s, Sign(For));
    Opens(s, For);
    HeadNeutral(s, w, e1, e2, e3);
    NextCloses(s, w);
    Both(s, s, s, inner, NextToks(w));
    Both(s, s, s, HeadToks(w, e1, e2, e3), inner + NextToks(w));
    Both(s, s, s, [Sign(For)], HeadToks(w, e1, e2, e3) + (inner + NextToks(w)));
  }

  /** The skip of an empty range finds the NEXT of its own loop. */
  lemma RepeatSkips(l: Lang, p: seq<Token>, vars: set<string>, bound: set<string>, n: nat, v: string, body: Forest)
    requires At(p, n, ForestToks(body) + NextToks(v)) && Scoped(l, vars, bound, body) && v in bound
    ensures ScanFrom(p, n, ForScan(v, false)) == n + |ForestToks(body)| + 1
  {
    hide At, ScanFrom, Scoped;
    var s := ForScan(v, false);
    ForestCalm(l, vars, bound, body, v);
    AtSplit(p, n, ForestToks(body), NextToks(v));
    ScanOver(p, n, ForestToks(body), s, s);
    var m := n + |ForestToks(body)|;
    NextStands(p, m, v);
    ScanGoes(p, m, s, ForScan(v, true));
    ScanStops(p, m + 1, ForScan(v, true));
  }

  lemma StartFollows(p: seq<Token>, n: nat, body: Forest, v: string)
    requires StartsPlain(body) && At(p, n, ForestToks(body) + NextToks(v))
    ensures Follows(RawAt(p, n).kind)
  {
    hide HeadToks;
    var toks := ForestToks(body) + NextToks(v);
    assert p[n + 0] == toks[0];
    if body.Elem? {
      assert ElementToks(body.first) != [];
      assert toks[0] == ElementToks(body.first)[0];
    }
  }

  /** The tokens of a loop in their places. */
  lemma RepeatLayout(l: Lang, p: seq<Token>, vars: set<string>, bound: set<string>, i: nat, v: string, e1: Expr,
                     e2: Expr,
                     e3: Option<Expr>, body: Forest) returns (j1: nat, j2: nat)
    requires var toks := ElementToks(Repeat(v, e1, e2, e3, body));
             At(p, i, toks) && !Catches(RawAt(p, i + |toks|).kind)
    requires StartsPlain(body) && Scoped(l, vars, bound, body) && v in bound
    ensures var n := i + 1 + |HeadToks(v, e1, e2, e3)|;
            var m := n + |ForestToks(body)|;
            && i < n <= m && m + 1 < |p| && m + 2 == i + |ElementToks(Repeat(v, e1, e2, e3, body))|
            && p[i] == Sign(For) && At(p, n, ForestToks(body))
            && p[m] == Sign(Next) && p[m + 1] == Name(v)
            && ForStands(p, i + 1, v, e1, e2, e3, j1, j2, n, m + 2)
  {
    hide At, ScanFrom, ExprToks, ForestToks, StepToks, Follows, Scoped, StartsPlain, HeadToks;
    var head := HeadToks(v, e1, e2, e3);
    AtHead(p, i, Sign(For), head + (ForestToks(body) + NextToks(v)));
    AtSplit(p, i + 1, head, ForestToks(body) + NextToks(v));
    var n := i + 1 + |head|;
    AtSplit(p, n, ForestToks(body), NextToks(v));
    var m := n + |ForestToks(body)|;
    NextStands(p, m, v);
    StartFollows(p, n, body, v);
    RepeatSkips(l, p, vars, bound, n, v, body);
    j1, j2 := HeadLayout(p, i + 1, v, e1, e2, e3);
    StepSkipped(p, j2, v, e3);
  }

  /** The clauses that would catch an error at the end of a loop. */
  predicate Catches(k: Kind) { k == NoError || k == Error }

  lemma {:induction false} NothingCatches(p: seq<Token>, i: nat, es: Forest)
    requires At(p, i, ForestToks(es)) && !Catches(RawAt(p, i + |ForestToks(es)|).kind)
    ensures !Catches(RawAt(p, i).kind)
  {
    hide HeadToks;
    if es.Elem? {
      assert ElementToks(es.first) != [];
      assert p[i + 0] == ForestToks(es)[0] == ElementToks(es.first)[0];
    }
  }

  // ---------------------------------------------------------------- the induction

  lemma {:induction false} ForestPasses(l: Lang, fl: Floats, p: seq<Token>, k: nat, vars: set<string>,
                                        bound: set<string>,
                                        es: Forest, env: Env, e: Enc, nodes: seq<Node>) returns (e1: Enc)
    requires InRange(p, e) && At(p, e.st.idx, ForestToks(es)) && !Catches(RawAt(p, e.st.idx + |ForestToks(es)|).kind)
    requires Scoped(l, vars, bound, es) && Agree(e.st.env, env, vars - bound)
    requires Elements(l, fl, k, es, env) == Some(nodes)
    ensures Gets(l, fl, p, e, e1)
    ensures Passed(e, e1, e.st.idx + |ForestToks(es)|, e.st.fn, env, vars - bound, nodes)
    decreases es, 0
  {
    hide At, Gets, Agree, Levels, ScopedElement, ElementNodes, ElementToks, EncodedAll, Passed, InRange, Catches;
    if es.Empty? {
      GetsSelf(l, fl, p, e);
      PassedNone(e, e.st.idx, env, vars - bound);
      e1 := e;
    } else {
      var a, b := ElementNodes(l, fl, k, es.first, env).value, Elements(l, fl, k, es.rest, env).value;
      AtSplit(p, e.st.idx, ElementToks(es.first), ForestToks(es.rest));
      NothingCatches(p, e.st.idx + |ElementToks(es.first)|, es.rest);
      var e2 := ElementPasses(l, fl, p, k, vars, bound, es.first, env, e, a);
      assert e2.st.idx == e.st.idx + |ElementToks(es.first)| && e2.st.fn == e.st.fn
             && Agree(e2.st.env, env, vars - bound) by {
        PassedParts(e, e2, e.st.idx + |ElementToks(es.first)|, e.st.fn, env, vars - bound, a);
      }
      assert InRange(p, e2) by { GetsInRange(l, fl, p, e, e2); }
      e1 := ForestPasses(l, fl, p, k, vars, bound, es.rest, env, e2, b);
      GetsThen(l, fl, p, e, e2, e1);
      PassedThen(e, e2, e1, e2.st.idx, e.st.idx + |ForestToks(es)|, e.st.fn, env, vars - bound, a, b);
    }
  }

  lemma GetsInRange(l: Lang, fl: Floats, p: seq<Token>, e: Enc, e1: Enc)
    requires Gets(l, fl, p, e, e1)
    ensures InRange(p, e1)
  {
  }

  lemma PassedParts(e: Enc, e1: Enc, i: int, fn: int, env: Env, x: set<string>, nodes: seq<Node>)
    requires Passed(e, e1, i, fn, env, x, nodes)
    ensures e1.st.idx == i && e1.st.fn == fn && e1.st.wn == e.st.wn && Agree(e1.st.env, env, x)
    ensures Levels(e.st.sc, e1.st.sc, fn)
    ensures e1.out == Advanced(e, nodes).out && e1.mode == Advanced(e, nodes).mode
  {
  }

  lemma {:induction false} ElementPasses(l: Lang, fl: Floats, p: seq<Token>, k: nat, vars: set<string>,
                                         bound: set<string>,
                                         x: Element, env: Env, e: Enc, nodes: seq<Node>) returns (e1: Enc)
    requires InRange(p, e) && At(p, e.st.idx, ElementToks(x)) && !Catches(RawAt(p, e.st.idx + |ElementToks(x)|).kind)
    requires ScopedElement(l, vars, bound, x) && Agree(e.st.env, env, vars - bound)
    requires ElementNodes(l, fl, k, x, env) == Some(nodes)
    ensures Gets(l, fl, p, e, e1)
    ensures Passed(e, e1, e.st.idx + |ElementToks(x)|, e.st.fn, env, vars - bound, nodes)
    decreases x, 1
  {
    hide At, Gets, Agree, Passed, Elements, Scoped, Steady, Fixed, Texts, ItemValue, LoopValues, Rounds, StartsPlain,
         WordOf, ExprToks, HeadToks, ForestToks;
    match x {
      case LineEnds(end, text) =>
        e1 := LinePasses(l, fl, p, vars - bound, env, e, end, text);
      case Item(word, data) =>
        e1 := ItemPasses(l, fl, p, vars - bound, env, e, word, WordOf(word).f, data, nodes[0].bytes);
      case List(word, elems) =>
        if e.mode.Emitting? {
          e1 := ListEmits(l, fl, p, k, vars, bound, word, elems, env, e, nodes[0].children);
        } else {
          e1 := ListCounts(l, fl, p, k, vars, bound, word, elems, env, e, nodes[0].children);
        }
      case Repeat(v, a, b, c, body) =>
        e1 := RepeatPasses(l, fl, p, k, vars, bound, v, a, b, c, body, env, e, nodes);
    }
  }

  lemma LinePasses(l: Lang, fl: Floats, p: seq<Token>, x: set<string>, env: Env, e: Enc, end: bool, text: string)
    returns (e1: Enc)
    requires InRange(p, e) && At(p, e.st.idx, ElementToks(LineEnds(end, text))) && Agree(e.st.env, env, x)
    ensures Gets(l, fl, p, e, e1)
    ensures Passed(e, e1, e.st.idx + 1, e.st.fn, env, x, [])
  {
    hide Gets, Agree, Passed, At;
    var t := Token(if end then EndOfLine else LineNumber, text);
    assert ElementToks(LineEnds(end, text)) == [t] + [];
    AtHead(p, e.st.idx, t, []);
    if e.mode.Emitting? { Skips(l, fl, p, e); } else { LineSkips(l, fl, p, e); }
    e1 := e.(st := e.st.(idx := e.st.idx + 1));
    PassedNone(e, e.st.idx + 1, env, x);
  }

  lemma LineSkips(l: Lang, fl: Floats, p: seq<Token>, e: Enc)
    requires InRange(p, e) && e.st.idx < |p| && e.mode.Counting?
    requires p[e.st.idx].kind == LineNumber || p[e.st.idx].kind == EndOfLine
    ensures Gets(l, fl, p, e, e.(st := e.st.(idx := e.st.idx + 1)))
  {
    hide Command, EncRun, Gets;
    GetsTurn(l, fl, p, e, e.(st := e.st.(idx := e.st.idx + 1)));
  }

  /** A list inside a list that is counted is one element, whatever it holds. */
  lemma {:induction false} ListCounts(l: Lang, fl: Floats, p: seq<Token>, k: nat, vars: set<string>, bound: set<string>,
                                      word: string, elems: Forest, env: Env, e: Enc,
                                        children: seq<Node>) returns (e1: Enc)
    requires InRange(p, e) && e.mode.Counting? && At(p, e.st.idx, ElementToks(List(word, elems)))
    requires Scoped(l, vars, bound, elems) && Agree(e.st.env, env, vars - bound)
    requires Elements(l, fl, k, elems, env) == Some(children)
    ensures Gets(l, fl, p, e, e1)
    ensures Passed(e, e1, e.st.idx + |ElementToks(List(word, elems))|, e.st.fn, env, vars - bound, [Branch(children)])
    decreases elems, 1
  {
    hide At, Gets, Agree, Passed, Elements, Scoped, Encoded, EncodedAll, Levels, ForestToks, InRange, ElementToks;
    var j := ListToksSize(word, elems, e.st.idx);
    var e3 := CountOpens(l, fl, p, e, word, ForestToks(elems));
    var e4 := ForestPasses(l, fl, p, k, vars, bound, elems, env, e3, children);
    GetsThen(l, fl, p, e, e3, e4);
    PassedParts(e3, e4, j, e.st.fn, env, vars - bound, children);
    e1 := CountCloses(l, fl, p, e, e3, e4);
    assert Passed(e, e1, j + 1, e.st.fn, env, vars - bound, [Branch(children)]) by {
      PassedCount(e, e1, j + 1, env, vars - bound, Branch(children));
    }
  }

  /** Where the `>` of a list stands. */
  lemma ListToksSize(word: string, elems: Forest, i: nat) returns (j: nat)
    ensures ElementToks(List(word, elems)) == [Angle(LessThan)]
            + ([Name(word)] + (ForestToks(elems) + [Angle(GreaterThan)]))
    ensures j == i + 2 + |ForestToks(elems)| && j + 1 == i + |ElementToks(List(word, elems))|
  {
    j := i + 2 + |ForestToks(elems)|;
  }

  lemma CountOpens(l: Lang, fl: Floats, p: seq<Token>, e: Enc, word: string, inner: seq<Token>) returns (e3: Enc)
    requires InRange(p, e) && e.mode.Counting?
    requires At(p, e.st.idx, [Angle(LessThan)] + ([Name(word)] + (inner + [Angle(GreaterThan)])))
    ensures Gets(l, fl, p, e, e3) && InRange(p, e3) && e3.st == e.st.(idx := e.st.idx + 2) && e3.out == e.out
    ensures var m := e.mode; e3.mode == Counting(m.saved, m.nest + 1, if m.nest == 0 then m.count + 1 else m.count)
    ensures At(p, e.st.idx + 2, inner) && e.st.idx + 2 + |inner| < |p|
            && p[e.st.idx + 2 + |inner|] == Angle(GreaterThan)
  {
    hide At, Gets;
    var i, m := e.st.idx, e.mode;
    Angled(p, i, word, inner);
    CountsAngle(l, fl, p, e, LessThan);
    var count := if m.nest == 0 then m.count + 1 else m.count;
    var e2 := Enc(e.st.(idx := i + 1), e.out, Counting(m.saved, m.nest + 1, count));
    Skips(l, fl, p, e2);
    e3 := e2.(st := e2.st.(idx := i + 2));
    GetsThen(l, fl, p, e, e2, e3);
  }

  lemma CountCloses(l: Lang, fl: Floats, p: seq<Token>, e: Enc, e3: Enc, e4: Enc) returns (e1: Enc)
    requires e.mode.Counting? && e4.out == e3.out == e.out && Gets(l, fl, p, e, e4)
    requires e4.st.idx < |p| && p[e4.st.idx] == Angle(GreaterThan)
    requires var m := e.mode;
             e3.mode == e4.mode == Counting(m.saved, m.nest + 1, if m.nest == 0 then m.count + 1 else m.count)
    ensures Gets(l, fl, p, e, e1) && e1.st == e4.st.(idx := e4.st.idx + 1) && e1.out == e.out
    ensures var m := e.mode; e1.mode == Counting(m.saved, m.nest, if m.nest == 0 then m.count + 1 else m.count)
  {
    hide Gets;
    var m := e.mode;
    GetsInRange(l, fl, p, e, e4);
    CountsAngle(l, fl, p, e4, GreaterThan);
    var count := if m.nest == 0 then m.count + 1 else m.count;
    e1 := Enc(e4.st.(idx := e4.st.idx + 1), e4.out, Counting(m.saved, m.nest, count));
    GetsThen(l, fl, p, e, e4, e1);
  }

  lemma PassedCount(e: Enc, e1: Enc, i: int, env: Env, x: set<string>, node: Node)
    requires e.mode.Counting? && e1.st.idx == i && e1.st.fn == e.st.fn && e1.st.wn == e.st.wn
             && Levels(e.st.sc, e1.st.sc, e.st.fn)
    requires Agree(e1.st.env, env, x) && e1.out == e.out
    requires var m := e.mode; e1.mode == Counting(m.saved, m.nest, if m.nest == 0 then m.count + 1 else m.count)
    ensures Passed(e, e1, i, e.st.fn, env, x, [node])
  {
    hide Agree, Levels;
  }

  /** A list is passed over twice: the look-ahead finds as many elements as the encoder then emits. */
  lemma {:induction false} ListEmits(l: Lang, fl: Floats, p: seq<Token>, k: nat, vars: set<string>, bound: set<string>,
                                     word: string, elems: Forest, env: Env, e: Enc,
                                       children: seq<Node>) returns (e1: Enc)
    requires InRange(p, e) && e.mode.Emitting? && At(p, e.st.idx, ElementToks(List(word, elems)))
    requires WordOf(word).ListWord? && Scoped(l, vars, bound, elems) && Agree(e.st.env, env, vars - bound)
    requires Elements(l, fl, k, elems, env) == Some(children)
    ensures Gets(l, fl, p, e, e1)
    ensures Passed(e, e1, e.st.idx + |ElementToks(List(word, elems))|, e.st.fn, env, vars - bound, [Branch(children)])
    decreases elems, 1
  {
    hide At, Gets, Agree, Passed, Elements, Scoped, WordOf, Encoded, EncodedAll, Levels, ForestToks, Header, InRange,
      ElementToks;
    var j := ListToksSize(word, elems, e.st.idx);
    var e3 := EmitOpens(l, fl, p, e, word, ForestToks(elems));
    var e4 := ForestPasses(l, fl, p, k, vars, bound, elems, env, e3, children);
    GetsThen(l, fl, p, e, e3, e4);
    PassedParts(e3, e4, j, e.st.fn, env, vars - bound, children);
    var e5 := CountDone(l, fl, p, e, e4, e.st.idx + 2, |children|);
    var e6 := ForestPasses(l, fl, p, k, vars, bound, elems, env, e5, children);
    GetsThen(l, fl, p, e, e5, e6);
    PassedParts(e5, e6, j, e.st.fn, env, vars - bound, children);
    e1 := EmitCloses(l, fl, p, e, e6);
    LevelsThen(e.st.sc, e4.st.sc, e6.st.sc, e.st.fn);
    BranchOut(e.out, children);
    PassedEmit(e, e1, j + 1, env, vars - bound, [Branch(children)]);
  }

  lemma BranchOut(out: seq<byte>, children: seq<Node>)
    ensures (out + Header(LIST, |children|)) + EncodedAll(children) == out + EncodedAll([Branch(children)])
  {
    hide Header, EncodedAll, Encoded;
    BranchEncoded(children);
    EncodedOne(Branch(children));
  }

  lemma EmitOpens(l: Lang, fl: Floats, p: seq<Token>, e: Enc, word: string, inner: seq<Token>) returns (e3: Enc)
    requires InRange(p, e) && e.mode.Emitting? && WordOf(word).ListWord?
    requires At(p, e.st.idx, [Angle(LessThan)] + ([Name(word)] + (inner + [Angle(GreaterThan)])))
    ensures Gets(l, fl, p, e, e3) && InRange(p, e3)
    ensures e3 == Enc(e.st.(idx := e.st.idx + 2), e.out, Counting(e.st.idx + 2, 0, 0))
    ensures At(p, e.st.idx + 2, inner) && e.st.idx + 2 + |inner| < |p|
            && p[e.st.idx + 2 + |inner|] == Angle(GreaterThan)
  {
    hide At, Gets, WordOf;
    Angled(p, e.st.idx, word, inner);
    Skips(l, fl, p, e);
    var e2 := e.(st := e.st.(idx := e.st.idx + 1));
    ListOpens(l, fl, p, e2, word);
    e3 := Enc(e.st.(idx := e.st.idx + 2), e.out, Counting(e.st.idx + 2, 0, 0));
    GetsThen(l, fl, p, e, e2, e3);
  }

  lemma CountDone(l: Lang, fl: Floats, p: seq<Token>, e: Enc, e4: Enc, saved: nat, count: nat) returns (e5: Enc)
    requires Gets(l, fl, p, e, e4) && e4.mode == Counting(saved, 0, count) && e4.out == e.out
    requires e4.st.idx < |p| && p[e4.st.idx] == Angle(GreaterThan)
    ensures Gets(l, fl, p, e, e5) && InRange(p, e5)
    ensures e5.st == e4.st.(idx := saved) && e5.out == e.out + Header(LIST, count) && e5.mode == Emitting
  {
    hide Gets, Header;
    GetsInRange(l, fl, p, e, e4);
    CountEnds(l, fl, p, e4);
    e5 := Enc(e4.st.(idx := saved), e4.out + Header(LIST, count), Emitting);
    GetsThen(l, fl, p, e, e4, e5);
    GetsInRange(l, fl, p, e, e5);
  }

  lemma EmitCloses(l: Lang, fl: Floats, p: seq<Token>, e: Enc, e6: Enc) returns (e1: Enc)
    requires Gets(l, fl, p, e, e6) && e6.mode.Emitting? && e6.st.idx < |p| && p[e6.st.idx] == Angle(GreaterThan)
    ensures Gets(l, fl, p, e, e1) && e1.st == e6.st.(idx := e6.st.idx + 1) && e1.out == e6.out && e1.mode == Emitting
  {
    hide Gets;
    GetsInRange(l, fl, p, e, e6);
    Skips(l, fl, p, e6);
    e1 := e6.(st := e6.st.(idx := e6.st.idx + 1));
    GetsThen(l, fl, p, e, e6, e1);
  }

  lemma PassedEmit(e: Enc, e1: Enc, i: int, env: Env, x: set<string>, nodes: seq<Node>)
    requires e.mode.Emitting? && e1.st.idx == i && e1.st.fn == e.st.fn && e1.st.wn == e.st.wn
             && Levels(e.st.sc, e1.st.sc, e.st.fn)
    requires Agree(e1.st.env, env, x) && e1.out == e.out + EncodedAll(nodes) && e1.mode.Emitting?
    ensures Passed(e, e1, i, e.st.fn, env, x, nodes)
  {
    hide Agree, Levels, EncodedAll;
  }

  lemma LevelsThen(a: ScVars, b: ScVars, c: ScVars, f: int)
    requires Levels(a, b, f) && Levels(b, c, f)
    ensures Levels(a, c, f)
  {
  }

  lemma BranchEncoded(children: seq<Node>)
    ensures Encoded(Branch(children)) == Header(LIST, |children|) + EncodedAll(children)
  {
  }

  /** The head of a loop, read: its body at `n`, or its end for an empty range. */
  ghost predicate Started(l: Lang, e: Enc, e1: Enc, n: nat, end: nat, v: string, env: Env, vars: set<string>,
                          bound: set<string>,
                          r: Entered)
    requires r.Entry?
  {
    && e1.out == e.out && e1.mode == e.mode && e1.st.wn == e.st.wn && Levels(e.st.sc, e1.st.sc, e.st.fn)
    && if l.num(r.t1) > l.num(r.t2) then e1.st.idx == end && e1.st.fn == e.st.fn && Agree(e1.st.env, env, vars - bound)
       else e1.st.idx == n && e1.st.fn == e.st.fn + 1 && Agree(e1.st.env, env[v := r.t1], vars - (bound + {v}))
            && OnTop(e1.st, n, r.t2, r.t3)
  }

  lemma RepeatStarts(l: Lang, fl: Floats, p: seq<Token>, vars: set<string>, bound: set<string>, v: string, a: Expr,
                     b: Expr,
                     c: Option<Expr>, env: Env, e: Enc, j1: nat, j2: nat, n: nat, end: nat) returns (e1: Enc)
    requires InRange(p, e) && e.st.idx < |p| && p[e.st.idx] == Sign(For)
             && ForStands(p, e.st.idx + 1, v, a, b, c, j1, j2, n, end)
    requires v in vars && v !in bound && Agree(e.st.env, env, vars - bound)
    requires Steady(l, a, vars - bound) && Steady(l, b, vars - (bound + {v}))
    requires c.Some? ==> Steady(l, c.value, vars - (bound + {v}))
    requires Enter(l, v, a, b, c, env).Entry?
    ensures Gets(l, fl, p, e, e1) && Started(l, e, e1, n, end, v, env, vars, bound, Enter(l, v, a, b, c, env))
  {
    hide Gets, Agree, Levels, Steady, ForStands, Enter, Command, OnTop;
    var r := Enter(l, v, a, b, c, env);
    EnterSteady(l, e.st.env, env, vars, bound, v, a, b, c);
    var r1 := r.(env := e.st.env[v := r.t1]);
    var st := e.st.(idx := e.st.idx + 1);
    var st1 := ForRuns(l, p, st, v, a, b, c, j1, j2, n, end);
    Commands(l, fl, p, e, For, st1);
    e1 := e.(st := st1);
    ForLevels(st, n, r1);
    AgreeInside(e.st.env, env, vars, bound, v, r.t1);
  }

  lemma {:induction false} RepeatPasses(l: Lang, fl: Floats, p: seq<Token>, k: nat, vars: set<string>,
                                        bound: set<string>,
                                        v: string, a: Expr, b: Expr, c: Option<Expr>, body: Forest, env: Env, e: Enc,
                                        nodes: seq<Node>) returns (e1: Enc)
    requires var toks := ElementToks(Repeat(v, a, b, c, body));
             InRange(p, e) && At(p, e.st.idx, toks) && !Catches(RawAt(p, e.st.idx + |toks|).kind)
    requires ScopedElement(l, vars, bound, Repeat(v, a, b, c, body)) && Agree(e.st.env, env, vars - bound)
    requires ElementNodes(l, fl, k, Repeat(v, a, b, c, body), env) == Some(nodes)
    ensures Gets(l, fl, p, e, e1)
    ensures Passed(e, e1, e.st.idx + |ElementToks(Repeat(v, a, b, c, body))|, e.st.fn, env, vars - bound, nodes)
    decreases body, 3
  {
    hide At, Gets, Agree, Passed, Elements, Scoped, EncodedAll, Levels, ForestToks, HeadToks, Steady, StartsPlain,
      Counts,
         ForStands, Enter, ElementToks, Rounds, Advanced, InRange, OnTop, ElementNodes, LoopValues, Catches;
    RepeatMeaning(l, fl, k, v, a, b, c, body, env, nodes);
    var n := e.st.idx + 1 + |HeadToks(v, a, b, c)|;
    var end := n + |ForestToks(body)| + 2;
    var j1, j2 := RepeatLayout(l, p, vars, bound + {v}, e.st.idx, v, a, b, c, body);
    var r := Enter(l, v, a, b, c, env);
    var e2 := RepeatStarts(l, fl, p, vars, bound, v, a, b, c, env, e, j1, j2, n, end);
    GetsInRange(l, fl, p, e, e2);
    if l.num(r.t1) > l.num(r.t2) {
      e1 := e2;
      PassedLoop(e, e2, e1, end, env, vars - bound, []);
    } else {
      var texts := Counts(l, k, r.t1, l.num(r.t2), l.num(r.t3)).value;
      e1 := RoundsPass(l, fl, p, k, vars, bound, v, texts, k, body, n, env, r.t2, r.t3, e2, nodes);
      GetsThen(l, fl, p, e, e2, e1);
      PassedBehind(e, e2, e1, end, e.st.fn, env, vars - bound, nodes);
    }
  }

  /** A step that emits and counts nothing, and a pass behind it. */
  lemma PassedBehind(e: Enc, e2: Enc, e1: Enc, i: int, fn: int, env: Env, x: set<string>, nodes: seq<Node>)
    requires e2.out == e.out && e2.mode == e.mode && e2.st.wn == e.st.wn && Levels(e.st.sc, e2.st.sc, fn)
    requires Passed(e2, e1, i, fn, env, x, nodes)
    ensures Passed(e, e1, i, fn, env, x, nodes)
  {
    hide Agree, EncodedAll;
  }

  lemma RepeatMeaning(l: Lang, fl: Floats, k: nat, v: string, a: Expr, b: Expr, c: Option<Expr>, body: Forest, env: Env,
                      nodes: seq<Node>)
    requires ElementNodes(l, fl, k, Repeat(v, a, b, c, body), env) == Some(nodes)
    ensures var r := Enter(l, v, a, b, c, env);
            && r.Entry?
            && if l.num(r.t1) > l.num(r.t2) then nodes == []
               else
                 var texts := Counts(l, k, r.t1, l.num(r.t2), l.num(r.t3));
                 && texts.Some? && texts.value != [] && texts.value[0] == r.t1
                 && Rounds(l, fl, k, v, texts.value, body, env) == Some(nodes)
  {
    hide Enter, Counts, Rounds, Elements;
    var r := Enter(l, v, a, b, c, env);
    if l.num(r.t1) > l.num(r.t2) {
      NoRounds(l, fl, k, v, body, env);
    } else {
      CountsFirst(l, k, r.t1, l.num(r.t2), l.num(r.t3));
    }
  }

  lemma NoRounds(l: Lang, fl: Floats, k: nat, v: string, body: Forest, env: Env)
    ensures Rounds(l, fl, k, v, [], body, env) == Some([])
  {
  }

  lemma PassedLoop(e: Enc, e2: Enc, e1: Enc, i: int, env: Env, x: set<string>, nodes: seq<Node>)
    requires e1 == e2 && nodes == [] && e1.out == e.out && e1.mode == e.mode
    requires e1.st.idx == i && e1.st.fn == e.st.fn && e1.st.wn == e.st.wn && Levels(e.st.sc, e1.st.sc, e.st.fn)
    requires Agree(e1.st.env, env, x)
    ensures Passed(e, e1, i, e.st.fn, env, x, nodes)
  {
    hide Agree, Levels;
    assert EncodedAll([]) == [] && e.out + [] == e.out;
  }

  /** FOR whose bounds can be computed. */
  lemma ForRuns(l: Lang, p: seq<Token>, st: St, v: string, a: Expr, b: Expr, c: Option<Expr>, j1: nat, j2: nat, n: nat,
                end: nat) returns (st1: St)
    requires ForStands(p, st.idx, v, a, b, c, j1, j2, n, end) && Enter(l, v, a, b, c, st.env).Entry?
    ensures var r := Enter(l, v, a, b, c, st.env);
            st1 == if l.num(r.t1) <= l.num(r.t2) then ForState(st, n, r)
                   else ForState(st, n, r).(fn := st.fn, idx := end)
    ensures st.idx <= |p| && Command(l, p, For, st) == CmdOut(st1, Fine)
  {
    hide CmdFor, Enter, At;
    ForCmdEnters(l, p, st, v, a, b, c, j1, j2, n, end);
    var r := Enter(l, v, a, b, c, st.env);
    st1 := if l.num(r.t1) <= l.num(r.t2) then ForState(st, n, r) else ForState(st, n, r).(fn := st.fn, idx := end);
  }

  lemma ForLevels(st: St, n: nat, r: Entered)
    requires r.Entry?
    ensures Levels(st.sc, ForState(st, n, r).sc, st.fn) && OnTop(ForState(st, n, r), n, r.t2, r.t3)
  {
  }

  /** One round of a loop, body and NEXT: the end of the loop at `end`, or its body again at `n`. */
  ghost predicate RoundDone(l: Lang, e: Enc, e1: Enc, n: nat, end: nat, v: string, env: Env, vars: set<string>,
                            bound: set<string>,
                            x: int, t2: string, t3: string, nodes: seq<Node>)
  {
    && e1.out == Advanced(e, nodes).out && e1.mode == Advanced(e, nodes).mode && e1.st.wn == e.st.wn
    && Levels(e.st.sc, e1.st.sc, e.st.fn)
    && if x > l.num(t2) then e1.st.idx == end && e1.st.fn == e.st.fn - 1 && Agree(e1.st.env, env, vars - bound)
       else e1.st.idx == n && e1.st.fn == e.st.fn && Agree(e1.st.env, env[v := l.show(x)], vars - (bound + {v}))
            && OnTop(e1.st, n, t2, t3)
  }

  lemma NextCatchesNothing()
    ensures !Catches(Next)
  {
  }

  lemma {:induction false} OneRound(l: Lang, fl: Floats, p: seq<Token>, k: nat, vars: set<string>, bound: set<string>,
                                    v: string, text: string, body: Forest, n: nat, env: Env,
                                    t2: string, t3: string, e: Enc, a: seq<Node>) returns (e1: Enc)
    requires InRange(p, e) && e.st.idx == n && At(p, n, ForestToks(body))
    requires var m := n + |ForestToks(body)|; m + 1 < |p| && p[m] == Sign(Next) && p[m + 1] == Name(v)
    requires v in vars && v !in bound && Scoped(l, vars, bound + {v}, body)
    requires Agree(e.st.env, env[v := text], vars - (bound + {v})) && OnTop(e.st, n, t2, t3)
    requires Elements(l, fl, k, body, env[v := text]) == Some(a)
    ensures Gets(l, fl, p, e, e1)
    ensures var x := Wrap32(l.num(text) + l.num(t3));
            RoundDone(l, e, e1, n, n + |ForestToks(body)| + 2, v, env, vars, bound, x, t2, t3, a)
    decreases body, 1
  {
    hide At, Gets, Agree, Passed, Elements, Scoped, EncodedAll, Levels, ForestToks, OnTop, Wrap32, Advanced, InRange,
      Catches;
    assert !Catches(Next) by { NextCatchesNothing(); }
    var m := n + |ForestToks(body)|;
    var env1, inner := env[v := text], vars - (bound + {v});
    var e2 := ForestPasses(l, fl, p, k, vars, bound + {v}, body, env1, e, a);
    PassedParts(e, e2, m, e.st.fn, env1, inner, a);
    GetsInRange(l, fl, p, e, e2);
    SameTop(e.st, e2.st, n, t2, t3);
    AgreeOutside(e2.st.env, env, vars, bound, v, text);
    e1 := NextPasses(l, fl, p, e2, v, n, t2, t3);
    GetsThen(l, fl, p, e, e2, e1);
    AgreeInside(e2.st.env, env, vars, bound, v, l.show(Wrap32(l.num(text) + l.num(t3))));
    LevelsSelf(e2.st.sc, e2.st.fn);
    if e1.st.fn == e2.st.fn { SameTop(e2.st, e1.st, n, t2, t3); }
  }

  /** The rounds of a loop, from the start of its body with the variable at `texts[0]`. */
  lemma {:induction false} RoundsPass(l: Lang, fl: Floats, p: seq<Token>, k: nat, vars: set<string>, bound: set<string>,
                                      v: string, texts: seq<string>, left: nat, body: Forest, n: nat, env: Env,
                                      t2: string, t3: string, e: Enc, nodes: seq<Node>) returns (e1: Enc)
    requires InRange(p, e) && e.st.idx == n && At(p, n, ForestToks(body))
    requires var m := n + |ForestToks(body)|; m + 1 < |p| && p[m] == Sign(Next) && p[m + 1] == Name(v)
    requires v in vars && v !in bound && Scoped(l, vars, bound + {v}, body)
    requires texts != [] && Counts(l, left, texts[0], l.num(t2), l.num(t3)) == Some(texts)
    requires Agree(e.st.env, env[v := texts[0]], vars - (bound + {v})) && OnTop(e.st, n, t2, t3)
    requires Rounds(l, fl, k, v, texts, body, env) == Some(nodes)
    ensures Gets(l, fl, p, e, e1)
    ensures Passed(e, e1, n + |ForestToks(body)| + 2, e.st.fn - 1, env, vars - bound, nodes)
    decreases body, 2, |texts|
  {
    hide At, Gets, Agree, Passed, Elements, Scoped, EncodedAll, Levels, ForestToks, OnTop, Counts, Rounds, Wrap32,
      Advanced,
         InRange;
    RoundsStep(l, fl, k, v, texts, body, env, nodes);
    CountsStep(l, left, texts, l.num(t2), l.num(t3));
    var a := Elements(l, fl, k, body, env[v := texts[0]]).value;
    var rest := Rounds(l, fl, k, v, texts[1..], body, env).value;
    var end := n + |ForestToks(body)| + 2;
    var x := Wrap32(l.num(texts[0]) + l.num(t3));
    e1 := OneRound(l, fl, p, k, vars, bound, v, texts[0], body, n, env, t2, t3, e, a);
    if x > l.num(t2) {
      LevelsLess(e.st.sc, e1.st.sc, e.st.fn);
      PassedRound(e, e1, end, env, vars - bound, nodes);
    } else {
      var e3 := e1;
      GetsInRange(l, fl, p, e, e3);
      e1 := RoundsPass(l, fl, p, k, vars, bound, v, texts[1..], left - 1, body, n, env, t2, t3, e3, rest);
      GetsThen(l, fl, p, e, e3, e1);
      RoundsJoin(e, e3, e1, end, env, vars - bound, a, rest);
    }
  }

  lemma RoundsStep(l: Lang, fl: Floats, k: nat, v: string, texts: seq<string>, body: Forest, env: Env, nodes: seq<Node>)
    requires texts != [] && Rounds(l, fl, k, v, texts, body, env) == Some(nodes)
    ensures var a, b := Elements(l, fl, k, body, env[v := texts[0]]), Rounds(l, fl, k, v, texts[1..], body, env);
            a.Some? && b.Some? && nodes == a.value + b.value && (|texts| == 1 ==> nodes == a.value)
  {
    hide Elements;
    if |texts| == 1 {
      assert texts[1..] == [];
      NoRounds(l, fl, k, v, body, env);
      assert Elements(l, fl, k, body, env[v := texts[0]]).value + []
             == Elements(l, fl, k, body, env[v := texts[0]]).value;
    }
  }

  lemma CountsStep(l: Lang, k: nat, texts: seq<string>, y: int, z: int)
    requires texts != [] && Counts(l, k, texts[0], y, z) == Some(texts)
    ensures var x := Wrap32(l.num(texts[0]) + z);
            if x > y then |texts| == 1
            else k > 0 && |texts| > 1 && texts[1] == l.show(x) && Counts(l, k - 1, l.show(x), y, z) == Some(texts[1..])
  {
    hide Wrap32;
    var x := Wrap32(l.num(texts[0]) + z);
    if x <= y {
      CountsFirst(l, k - 1, l.show(x), y, z);
    }
  }

  lemma CountsFirst(l: Lang, k: nat, t: string, y: int, z: int)
    requires Counts(l, k, t, y, z).Some?
    ensures Counts(l, k, t, y, z).value != [] && Counts(l, k, t, y, z).value[0] == t
  {
  }

  lemma LevelsSelf(sc: ScVars, f: int)
    ensures Levels(sc, sc, f)
  {
  }

  lemma LevelsLess(a: ScVars, b: ScVars, f: int)
    requires Levels(a, b, f)
    ensures Levels(a, b, f - 1)
  {
  }

  lemma PassedRound(e: Enc, e1: Enc, i: int, env: Env, x: set<string>, nodes: seq<Node>)
    requires e1.st.idx == i && e1.st.fn == e.st.fn - 1 && e1.st.wn == e.st.wn && Levels(e.st.sc, e1.st.sc, e.st.fn - 1)
    requires Agree(e1.st.env, env, x) && e1.out == Advanced(e, nodes).out && e1.mode == Advanced(e, nodes).mode
    ensures Passed(e, e1, i, e.st.fn - 1, env, x, nodes)
  {
    hide Agree, Levels, Advanced;
  }

  /** A round, and the rounds behind it. */
  lemma RoundsJoin(e: Enc, e3: Enc, e1: Enc, i: int, env: Env, x: set<string>, a: seq<Node>, b: seq<Node>)
    requires e3.out == Advanced(e, a).out && e3.mode == Advanced(e, a).mode && e3.st.wn == e.st.wn
    requires Levels(e.st.sc, e3.st.sc, e.st.fn) && Passed(e3, e1, i, e.st.fn - 1, env, x, b)
    ensures Passed(e, e1, i, e.st.fn - 1, env, x, a + b)
  {
    hide EncodedAll, Agree;
    EncodedAppend(a, b);
    assert e.out + EncodedAll(a + b) == (e.out + EncodedAll(a)) + EncodedAll(b);
  }

  // ---------------------------------------------------------------- the theorem

  /** The end of a message text: a full stop, or the end of the program. */
  predicate EndsText(p: seq<Token>, i: nat) {
    i == |p| || (i < |p| && p[i].kind == Binary(Period))
  }

  /** A message text that means the items `nodes` is encoded as they are: the header of every list
      holds the number of its items, and the counters of all loops are as they were. */
  lemma EncodesMeaning(l: Lang, fl: Floats, p: seq<Token>, k: nat, vars: set<string>, es: Forest, st: St,
                       nodes: seq<Node>)
      returns (n: nat, c: EncConfig)
    requires At(p, st.idx, ForestToks(es)) && EndsText(p, st.idx + |ForestToks(es)|)
    requires Scoped(l, vars, {}, es) && Elements(l, fl, k, es, st.env) == Some(nodes)
    ensures st.idx <= |p| && EncRun(l, fl, p, n, Working(Enc(st, [], Emitting))) == c
    ensures c.Stopped? && c.how == Complete && c.e.out == EncodedAll(nodes)
    ensures c.e.st.idx == Past(p, st.idx + |ForestToks(es)|)
    ensures c.e.st.fn == st.fn && c.e.st.wn == st.wn && Agree(c.e.st.env, st.env, vars)
  {
    hide At, Agree, Elements, Scoped, EncodedAll, Levels, ForestToks, EncTurn, EncRun;
    AtBound(p, st.idx, ForestToks(es));
    var e := Enc(st, [], Emitting);
    assert Agree(st.env, st.env, vars - {}) by { AgreeSelf(st.env, vars - {}); }
    var e1 := ForestPasses(l, fl, p, k, vars, {}, es, st.env, e, nodes);
    assert vars - {} == vars;
    var m: nat :| EncRun(l, fl, p, m, Working(e)) == Working(e1);
    Stops(l, fl, p, e1);
    c := Stopped(e1.(st := e1.st.(idx := Past(p, e1.st.idx))), Complete);
    EncRunAdd(l, fl, p, m, 1, Working(e));
    n := m + 1;
    assert [] + EncodedAll(nodes) == EncodedAll(nodes);
  }

  lemma AgreeSelf(a: Env, x: set<string>)
    ensures Agree(a, a, x)
  {
  }

  lemma Stops(l: Lang, fl: Floats, p: seq<Token>, e: Enc)
    requires e.st.idx <= |p| && e.mode.Emitting? && EndsText(p, e.st.idx)
    ensures EncRun(l, fl, p, 1, Working(e)) == Stopped(e.(st := e.st.(idx := Past(p, e.st.idx))), Complete)
  {
    hide Command, WordOf, EmitItem;
    assert EncTurn(l, fl, p, e) == Stopped(e.(st := e.st.(idx := Past(p, e.st.idx))), Complete);
  }
}
