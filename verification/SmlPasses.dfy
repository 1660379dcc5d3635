/** The encoder passes over a message text as its meaning says, both when it emits items and when it
    counts ahead. The look-ahead leaves its own values in the loop variables; no bound and no datum
    that is computed later can tell. */
module SmlPasses {
  import opened Tokens
  import opened Programs
  import opened ExpressionTree
  import opened Flow
  import opened Structured
  import opened FlowLoops
  import opened Bytes
  import opened Machine
  import opened SecsItems
  import opened SecsTree
  import opened SmlEncode
  import opened SmlTree

  // ---------------------------------------------------------------- runs

  predicate InRange(p: seq<Token>, e: Enc) {
    e.st.idx <= |p| && (e.mode.Counting? ==> e.mode.saved <= |p|)
  }

  ghost predicate Gets(l: Lang, fl: Floats, p: seq<Token>, e: Enc, e1: Enc) {
    InRange(p, e) && InRange(p, e1) && exists n: nat :: EncRun(l, fl, p, n, Working(e)) == Working(e1)
  }

  lemma GetsSelf(l: Lang, fl: Floats, p: seq<Token>, e: Enc)
    requires InRange(p, e)
    ensures Gets(l, fl, p, e, e)
  {
    hide EncTurn;
    assert EncRun(l, fl, p, 0, Working(e)) == Working(e);
  }

  lemma GetsTurn(l: Lang, fl: Floats, p: seq<Token>, e: Enc, e1: Enc)
    requires InRange(p, e) && EncTurn(l, fl, p, e) == Working(e1)
    ensures Gets(l, fl, p, e, e1)
  {
    hide EncTurn;
    assert EncRun(l, fl, p, 1, Working(e)) == EncRun(l, fl, p, 0, Working(e1)) == Working(e1);
  }

  lemma GetsThen(l: Lang, fl: Floats, p: seq<Token>, e: Enc, e1: Enc, e2: Enc)
    requires Gets(l, fl, p, e, e1) && Gets(l, fl, p, e1, e2)
    ensures Gets(l, fl, p, e, e2)
  {
    hide EncTurn, EncRun;
    var m: nat :| EncRun(l, fl, p, m, Working(e)) == Working(e1);
    var n: nat :| EncRun(l, fl, p, n, Working(e1)) == Working(e2);
    EncRunAdd(l, fl, p, m, n, Working(e));
  }

  // ---------------------------------------------------------------- what a pass does

  /** The bytes or the count that `nodes` add. */
  function Advanced(e: Enc, nodes: seq<Node>): Enc {
    match e.mode
    case Emitting => e.(out := e.out + EncodedAll(nodes))
    case Counting(s, n, c) => e.(mode := Counting(s, n, if n == 0 then c + |nodes| else c))
  }

  /** The loops entered up to level `f` keep their numbers. */
  ghost predicate Levels(sc: ScVars, sc1: ScVars, f: int) {
    forall n: int :: n <= f ==>
      && (ForVar(n) in sc ==> ForVar(n) in sc1 && sc1[ForVar(n)] == sc[ForVar(n)])
      && (ToVar(n) in sc ==> ToVar(n) in sc1 && sc1[ToVar(n)] == sc[ToVar(n)])
      && (StepVar(n) in sc ==> StepVar(n) in sc1 && sc1[StepVar(n)] == sc[StepVar(n)])
  }

  /** From `e` to `e1`: the cursor at `i`, the nest at `fn`, the variables as `env` but for `x`. */
  ghost predicate Passed(e: Enc, e1: Enc, i: int, fn: int, env: Env, x: set<string>, nodes: seq<Node>) {
    && e1.st.idx == i && e1.st.fn == fn && e1.st.wn == e.st.wn && Levels(e.st.sc, e1.st.sc, fn)
    && Agree(e1.st.env, env, x)
    && e1.out == Advanced(e, nodes).out && e1.mode == Advanced(e, nodes).mode
  }

  lemma PassedThen(e: Enc, e1: Enc, e2: Enc, i: int, j: int, fn: int, env: Env, x: set<string>, a: seq<Node>,
                   b: seq<Node>)
    requires Passed(e, e1, i, e.st.fn, env, x, a) && Passed(e1, e2, j, fn, env, x, b) && fn <= e.st.fn
    ensures Passed(e, e2, j, fn, env, x, a + b)
  {
    hide EncodedAll, Agree;
    EncodedAppend(a, b);
    assert e.out + EncodedAll(a + b) == (e.out + EncodedAll(a)) + EncodedAll(b);
  }

  lemma PassedNone(e: Enc, i: nat, env: Env, x: set<string>)
    requires Agree(e.st.env, env, x)
    ensures Passed(e, e.(st := e.st.(idx := i)), i, e.st.fn, env, x, [])
  {
    hide Agree;
    assert EncodedAll([]) == [] && e.out + [] == e.out;
  }

  // ---------------------------------------------------------------- single turns

  lemma Skips(l: Lang, fl: Floats, p: seq<Token>, e: Enc)
    requires InRange(p, e) && e.st.idx < |p|
    requires var k := p[e.st.idx].kind;
             k == LineNumber || k == EndOfLine || (e.mode.Emitting? && IsAngle(k)) || (e.mode.Counting? && k.Value?)
             || (e.mode.Counting? && k == Binary(Minus))
    ensures Gets(l, fl, p, e, e.(st := e.st.(idx := e.st.idx + 1)))
  {
    hide Command, EncRun, Gets;
    GetsTurn(l, fl, p, e, e.(st := e.st.(idx := e.st.idx + 1)));
  }

  lemma CountsAngle(l: Lang, fl: Floats, p: seq<Token>, e: Enc, op: BinaryOp)
    requires InRange(p, e) && e.st.idx < |p| && e.mode.Counting? && p[e.st.idx] == Angle(op)
    requires op == LessThan || (op == GreaterThan && e.mode.nest > 0)
    ensures var m := e.mode;
            Gets(l, fl, p, e, Enc(e.st.(idx := e.st.idx + 1), e.out,
              if op == LessThan then Counting(m.saved, m.nest + 1, if m.nest == 0 then m.count + 1 else m.count)
              else Counting(m.saved, m.nest - 1, m.count)))
  {
    hide Command, EncRun, Gets;
    var m := e.mode;
    GetsTurn(l, fl, p, e, Enc(e.st.(idx := e.st.idx + 1), e.out,
              if op == LessThan then Counting(m.saved, m.nest + 1, if m.nest == 0 then m.count + 1 else m.count)
              else Counting(m.saved, m.nest - 1, m.count)));
  }

  lemma CountEnds(l: Lang, fl: Floats, p: seq<Token>, e: Enc)
    requires InRange(p, e) && e.st.idx < |p| && e.mode.Counting? && e.mode.nest == 0
    requires p[e.st.idx] == Angle(GreaterThan)
    ensures Gets(l, fl, p, e, Enc(e.st.(idx := e.mode.saved), e.out + Header(LIST, e.mode.count), Emitting))
  {
    hide Command, EncRun, Gets, Header;
    GetsTurn(l, fl, p, e, Enc(e.st.(idx := e.mode.saved), e.out + Header(LIST, e.mode.count), Emitting));
  }

  lemma ListOpens(l: Lang, fl: Floats, p: seq<Token>, e: Enc, word: string)
    requires InRange(p, e) && e.st.idx < |p| && e.mode.Emitting? && p[e.st.idx] == Name(word) && WordOf(word).ListWord?
    ensures Gets(l, fl, p, e, Enc(e.st.(idx := e.st.idx + 1), e.out, Counting(e.st.idx + 1, 0, 0)))
  {
    hide Command, EncRun, Gets, WordOf;
    GetsTurn(l, fl, p, e, Enc(e.st.(idx := e.st.idx + 1), e.out, Counting(e.st.idx + 1, 0, 0)));
  }

  lemma Commands(l: Lang, fl: Floats, p: seq<Token>, e: Enc, k: Kind, st1: St)
    requires InRange(p, e) && e.st.idx < |p| && p[e.st.idx] == Sign(k) && (k == For || k == Next)
    requires Command(l, p, k, e.st.(idx := e.st.idx + 1)) == CmdOut(st1, Fine)
    ensures Gets(l, fl, p, e, e.(st := st1))
  {
    hide Command, EncRun, Gets;
    assert WordOf("") == NoWord;
    GetsTurn(l, fl, p, e, e.(st := st1));
  }

  // ---------------------------------------------------------------- items

  /** How many tokens the next text of `data` takes. */
  function Taken(f: Format, data: seq<Token>): (n: nat)
    requires data != []
    ensures 1 <= n <= |data|
  {
    if (f.Signed? || f.Float?) && data[0] == Angle(Minus) && |data| > 1 then 2 else 1
  }

  lemma TextsStep(l: Lang, f: Format, data: seq<Token>, env: Env)
    requires data != []
    ensures var n := Taken(f, data);
            var text := if n == 2 then "-" + TokenText(l, data[1], env) else TokenText(l, data[0], env);
            Texts(l, f, data, env) == [text] + Texts(l, f, data[n..], env)
  {
    hide TokenText;
  }

  lemma TextSame(l: Lang, p: seq<Token>, a: Env, env: Env, x: set<string>, t: Token, i: nat)
    requires i < |p| && p[i] == t && Agree(a, env, x) && Fixed(l, t, x)
    ensures TokenAt(l.ops.resolve, p, a, i).text == TokenText(l, t, env)
    ensures TokenAt(l.ops.resolve, p, a, i).kind == t.kind
  {
    hide Agree;
  }

  lemma DataAt(p: seq<Token>, i: nat, data: seq<Token>)
    requires data != [] && At(p, i, data)
    ensures i + |data| <= |p| && p[i] == data[0] && (|data| > 1 ==> p[i + 1] == data[1])
  {
    assert p[i + 0] == data[0] && (|data| > 1 ==> p[i + 1] == data[1]);
  }

  /** The next text of the data, as the encoder reads it and as its meaning has it. */
  lemma TextRead(l: Lang, p: seq<Token>, a: Env, env: Env, x: set<string>, f: Format, data: seq<Token>, i: nat)
    requires data != [] && DataTokens(data) && At(p, i, data)
    requires Agree(a, env, x) && forall k :: 0 <= k < |data| ==> Fixed(l, data[k], x)
    ensures var n := Taken(f, data);
            && i + n <= |p| && RawAt(p, i).kind != Binary(GreaterThan)
            && Texts(l, f, data, env) == [Texts(l, f, data, env)[0]] + Texts(l, f, data[n..], env)
            && DataText(l, p, a, f, i) == (Texts(l, f, data, env)[0], i + n)
  {
    hide Agree, Fixed, TokenText, Texts, TokenAt, At;
    assert data[|data| - 1].kind.Value?;
    DataAt(p, i, data);
    TextsStep(l, f, data, env);
    TextSame(l, p, a, env, x, data[0], i);
    if Taken(f, data) == 2 {
      TextSame(l, p, a, env, x, data[1], i + 1);
    }
  }

  lemma ItemDataStep(l: Lang, fl: Floats, p: seq<Token>, a: Env, f: Format, i: nat, text: string, j: nat, k: nat,
                     bytes: seq<byte>)
    requires i < |p| && RawAt(p, i).kind != Binary(GreaterThan) && DataText(l, p, a, f, i) == (text, j) && i < j <= |p|
    requires Convert(fl, f, text).ok && ItemData(l, fl, p, a, f, j) == Data(k, bytes, true)
    ensures ItemData(l, fl, p, a, f, i) == Data(k, Convert(fl, f, text).bytes + bytes, true)
  {
    hide Convert, DataText;
  }

  lemma {:induction false} DataRead(l: Lang, fl: Floats, p: seq<Token>, a: Env, env: Env, x: set<string>, f: Format,
                                    data: seq<Token>, i: nat)
    requires DataTokens(data) && At(p, i, data + [Angle(GreaterThan)])
    requires Agree(a, env, x) && forall k :: 0 <= k < |data| ==> Fixed(l, data[k], x)
    requires ItemValue(fl, f, Texts(l, f, data, env)).Some?
    ensures i + |data| < |p|
    ensures ItemData(l, fl, p, a, f, i) == Data(i + |data|, ItemValue(fl, f, Texts(l, f, data, env)).value, true)
    decreases |data|
  {
    hide Agree, Convert, At, Texts, DataText, ItemData, Fixed;
    AtSplit(p, i, data, [Angle(GreaterThan)]);
    if data == [] {
      NoData(l, fl, p, a, env, f, i);
    } else {
      TextRead(l, p, a, env, x, f, data, i);
      var n := Taken(f, data);
      var texts, rest := Texts(l, f, data, env), data[n..];
      assert data + [Angle(GreaterThan)] == data[..n] + (rest + [Angle(GreaterThan)]);
      AtSplit(p, i, data[..n], rest + [Angle(GreaterThan)]);
      assert rest != [] ==> rest[|rest| - 1] == data[|data| - 1];
      assert texts[1..] == Texts(l, f, rest, env);
      DataRead(l, fl, p, a, env, x, f, rest, i + n);
      ItemDataStep(l, fl, p, a, f, i, texts[0], i + n, i + |data|, ItemValue(fl, f, texts[1..]).value);
    }
  }

  lemma NoData(l: Lang, fl: Floats, p: seq<Token>, a: Env, env: Env, f: Format, i: nat)
    requires At(p, i, [] + [Angle(GreaterThan)])
    ensures i < |p| && Texts(l, f, [], env) == [] && ItemData(l, fl, p, a, f, i) == Data(i, [], true)
  {
    hide DataText, Convert;
    assert [] + [Angle(GreaterThan)] == [Angle(GreaterThan)] + [];
    AtHead(p, i, Angle(GreaterThan), []);
  }

  lemma {:induction false} DataSkipped(l: Lang, fl: Floats, p: seq<Token>, e: Enc, data: seq<Token>)
    requires InRange(p, e) && e.mode.Counting? && At(p, e.st.idx, data)
    requires forall k :: 0 <= k < |data| ==> data[k].kind.Value? || data[k] == Angle(Minus)
    ensures Gets(l, fl, p, e, e.(st := e.st.(idx := e.st.idx + |data|)))
    decreases |data|
  {
    hide Gets, At;
    if data == [] {
      GetsSelf(l, fl, p, e);
    } else {
      assert data == [data[0]] + data[1..];
      AtHead(p, e.st.idx, data[0], data[1..]);
      var e1 := e.(st := e.st.(idx := e.st.idx + 1));
      Skips(l, fl, p, e);
      DataSkipped(l, fl, p, e1, data[1..]);
      GetsThen(l, fl, p, e, e1, e1.(st := e1.st.(idx := e1.st.idx + |data[1..]|)));
    }
  }

  lemma ItemEmitted(l: Lang, fl: Floats, p: seq<Token>, e: Enc, word: string, f: Format, i: nat, bytes: seq<byte>)
    requires InRange(p, e) && e.st.idx < |p| && e.mode.Emitting? && p[e.st.idx] == Name(word)
             && WordOf(word) == ItemWord(f)
    requires ItemData(l, fl, p, e.st.env, f, e.st.idx + 1) == Data(i, bytes, true)
    ensures Gets(l, fl, p, e, e.(st := e.st.(idx := i), out := e.out + (Header(Code(f), |bytes|) + bytes)))
  {
    hide Command, EncRun, Gets, WordOf, Header, ItemData;
    GetsTurn(l, fl, p, e, e.(st := e.st.(idx := i), out := e.out + (Header(Code(f), |bytes|) + bytes)));
  }

  /** The parts of `<word inner>`. */
  lemma Angled(p: seq<Token>, i: nat, word: string, inner: seq<Token>)
    requires At(p, i, [Angle(LessThan)] + ([Name(word)] + (inner + [Angle(GreaterThan)])))
    ensures i + 2 + |inner| < |p| && p[i] == Angle(LessThan) && p[i + 1] == Name(word)
    ensures At(p, i + 2, inner + [Angle(GreaterThan)]) && At(p, i + 2, inner)
            && p[i + 2 + |inner|] == Angle(GreaterThan)
  {
    hide At;
    AtHead(p, i, Angle(LessThan), [Name(word)] + (inner + [Angle(GreaterThan)]));
    AtHead(p, i + 1, Name(word), inner + [Angle(GreaterThan)]);
    AtSplit(p, i + 2, inner, [Angle(GreaterThan)]);
    assert [Angle(GreaterThan)] + [] == [Angle(GreaterThan)];
    AtHead(p, i + 2 + |inner|, Angle(GreaterThan), []);
  }

  /** One item is emitted in three rounds. */
  lemma ItemEmits(l: Lang, fl: Floats, p: seq<Token>, vars: set<string>, env: Env, e: Enc, word: string, f: Format,
                  data: seq<Token>, bytes: seq<byte>) returns (e1: Enc)
    requires InRange(p, e) && e.mode.Emitting? && At(p, e.st.idx, ElementToks(Item(word, data)))
    requires WordOf(word) == ItemWord(f) && DataTokens(data) && forall k :: 0 <= k < |data| ==> Fixed(l, data[k], vars)
    requires Agree(e.st.env, env, vars) && ItemValue(fl, f, Texts(l, f, data, env)) == Some(bytes)
    ensures Gets(l, fl, p, e, e1)
    ensures e1 == e.(st := e.st.(idx := e.st.idx + |ElementToks(Item(word, data))|),
                     out := e.out + (Header(Code(f), |bytes|) + bytes))
  {
    hide Gets, At, Agree, WordOf, ItemData, Header, Fixed, Texts;
    var i := e.st.idx;
    Angled(p, i, word, data);
    var j := i + 2 + |data|;
    var e2 := e.(st := e.st.(idx := i + 1));
    Skips(l, fl, p, e);
    DataRead(l, fl, p, e.st.env, env, vars, f, data, i + 2);
    ItemEmitted(l, fl, p, e2, word, f, j, bytes);
    var e3 := e2.(st := e2.st.(idx := j), out := e2.out + (Header(Code(f), |bytes|) + bytes));
    GetsThen(l, fl, p, e, e2, e3);
    Skips(l, fl, p, e3);
    e1 := e3.(st := e3.st.(idx := j + 1));
    GetsThen(l, fl, p, e, e3, e1);
  }

  /** The look-ahead takes a round a token. */
  lemma ItemCounts(l: Lang, fl: Floats, p: seq<Token>, e: Enc, word: string, data: seq<Token>) returns (e1: Enc)
    requires InRange(p, e) && e.mode.Counting? && At(p, e.st.idx, ElementToks(Item(word, data))) && DataTokens(data)
    ensures Gets(l, fl, p, e, e1)
    ensures var m := e.mode;
            e1 == Enc(e.st.(idx := e.st.idx + |ElementToks(Item(word, data))|), e.out,
                      Counting(m.saved, m.nest, if m.nest == 0 then m.count + 1 else m.count))
  {
    hide Gets, At;
    var i := e.st.idx;
    Angled(p, i, word, data);
    var j := i + 2 + |data|;
    var m := e.mode;
    CountsAngle(l, fl, p, e, LessThan);
    var count := if m.nest == 0 then m.count + 1 else m.count;
    var e2 := Enc(e.st.(idx := i + 1), e.out, Counting(m.saved, m.nest + 1, count));
    Skips(l, fl, p, e2);
    var e3 := e2.(st := e2.st.(idx := i + 2));
    GetsThen(l, fl, p, e, e2, e3);
    DataSkipped(l, fl, p, e3, data);
    var e4 := e3.(st := e3.st.(idx := j));
    GetsThen(l, fl, p, e, e3, e4);
    CountsAngle(l, fl, p, e4, GreaterThan);
    e1 := Enc(e4.st.(idx := j + 1), e4.out, Counting(m.saved, m.nest, e4.mode.count));
    GetsThen(l, fl, p, e, e4, e1);
  }

  lemma ItemPasses(l: Lang, fl: Floats, p: seq<Token>, vars: set<string>, env: Env, e: Enc, word: string, f: Format,
                   data: seq<Token>, bytes: seq<byte>) returns (e1: Enc)
    requires InRange(p, e) && At(p, e.st.idx, ElementToks(Item(word, data)))
    requires WordOf(word) == ItemWord(f) && DataTokens(data) && forall k :: 0 <= k < |data| ==> Fixed(l, data[k], vars)
    requires Agree(e.st.env, env, vars) && ItemValue(fl, f, Texts(l, f, data, env)) == Some(bytes)
    ensures Gets(l, fl, p, e, e1)
    ensures Passed(e, e1, e.st.idx + |ElementToks(Item(word, data))|, e.st.fn, env, vars, [Leaf(f, bytes)])
  {
    hide Gets, At, Agree, WordOf, Header, Encoded, EncodedAll, Fixed, Texts, ElementToks;
    EncodedOne(Leaf(f, bytes));
    LeafEncoded(f, bytes);
    if e.mode.Emitting? {
      e1 := ItemEmits(l, fl, p, vars, env, e, word, f, data, bytes);
    } else {
      e1 := ItemCounts(l, fl, p, e, word, data);
    }
  }

  lemma LeafEncoded(f: Format, bytes: seq<byte>)
    ensures Encoded(Leaf(f, bytes)) == Header(Code(f), |bytes|) + bytes
  {
  }

  // ---------------------------------------------------------------- loops

  lemma AgreeInside(a: Env, env: Env, vars: set<string>, bound: set<string>, v: string, t: string)
    requires v in vars && v !in bound && Agree(a, env, vars - bound)
    ensures Agree(a[v := t], env[v := t], vars - (bound + {v}))
    ensures Agree(a[v := t], env, vars - bound)
  {
  }

  lemma AgreeOutside(a: Env, env: Env, vars: set<string>, bound: set<string>, v: string, t: string)
    requires v in vars && v !in bound && Agree(a, env[v := t], vars - (bound + {v}))
    ensures Agree(a, env, vars - bound) && v in a && a[v] == t
  {
  }

  /** The bounds of a loop are the same whatever a look-ahead left in the loop variables. */
  lemma EnterSteady(l: Lang, a: Env, env: Env, vars: set<string>, bound: set<string>, v: string, e1: Expr, e2: Expr,
                    e3: Option<Expr>)
    requires v in vars && v !in bound && Agree(a, env, vars - bound)
    requires Steady(l, e1, vars - bound) && Steady(l, e2, vars - (bound + {v}))
    requires e3.Some? ==> Steady(l, e3.value, vars - (bound + {v}))
    requires Enter(l, v, e1, e2, e3, env).Entry?
    ensures var r := Enter(l, v, e1, e2, e3, env); Enter(l, v, e1, e2, e3, a) == r.(env := a[v := r.t1])
  {
    hide Compute, Agree;
    var r := Enter(l, v, e1, e2, e3, env);
    AgreeInside(a, env, vars, bound, v, r.t1);
    assert Compute(l, e1, env).text == r.t1;
    assert Compute(l, e1, a).text == r.t1;
    assert Compute(l, e2, env[v := r.t1]).text == r.t2;
    assert Compute(l, e2, a[v := r.t1]).text == r.t2;
  }

  /** The loop on top of the nest, with its body at `n`. */
  ghost predicate OnTop(st: St, n: nat, t2: string, t3: string) {
    && ToVar(st.fn) in st.sc && st.sc[ToVar(st.fn)] == Text(t2)
    && StepVar(st.fn) in st.sc && st.sc[StepVar(st.fn)] == Text(t3)
    && ForVar(st.fn) in st.sc && st.sc[ForVar(st.fn)] == Index(n)
  }

  /** A look-ahead or a real run that stands behind a loop's body at its NEXT. */
  lemma NextPasses(l: Lang, fl: Floats, p: seq<Token>, e: Enc, v: string, n: nat, t2: string, t3: string)
    returns (e1: Enc)
    requires InRange(p, e) && e.st.idx + 1 < |p| && p[e.st.idx] == Sign(Next) && p[e.st.idx + 1] == Name(v)
    requires v in e.st.env && OnTop(e.st, n, t2, t3) && n <= |p|
    ensures Gets(l, fl, p, e, e1) && e1.out == e.out && e1.mode == e.mode && e1.st.wn == e.st.wn && e1.st.sc == e.st.sc
    ensures var x := Wrap32(l.num(e.st.env[v]) + l.num(t3));
            if x > l.num(t2) then e1.st.idx == e.st.idx + 2 && e1.st.fn == e.st.fn - 1 && e1.st.env == e.st.env
            else e1.st.idx == n && e1.st.fn == e.st.fn && e1.st.env == e.st.env[v := l.show(x)]
  {
    hide Gets, CmdNext, Wrap32;
    var st := e.st.(idx := e.st.idx + 1);
    NextCmd(l, p, st, v, n, t2, t3);
    var x := Wrap32(l.num(e.st.env[v]) + l.num(t3));
    var st1 := if x > l.num(t2) then st.(idx := st.idx + 1, fn := st.fn - 1)
               else st.(idx := n, env := st.env[v := l.show(x)]);
    Commands(l, fl, p, e, Next, st1);
    e1 := e.(st := st1);
  }

  lemma SameTop(st: St, st1: St, n: nat, t2: string, t3: string)
    requires OnTop(st, n, t2, t3) && st1.fn == st.fn && Levels(st.sc, st1.sc, st.fn)
    ensures OnTop(st1, n, t2, t3)
  {
  }
}
