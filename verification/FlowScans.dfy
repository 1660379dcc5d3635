/** The scanning loops pass over whole statements: a block leaves every scan as it was. */
module FlowScans {
  import opened Tokens
  import opened ExpressionTree
  import opened Flow
  import opened Structured

  /** A scan over all of `toks`. */
  function ScanAll(s: Scanner, toks: seq<Token>): Scan
    decreases |toks|
  {
    if toks == [] then Go(s)
    else
      match ScanToken(s, toks[0])
      case Stop => Stop
      case Go(s1) => ScanAll(s1, toks[1..])
  }

  lemma {:induction false} ScanAllAppend(s: Scanner, a: seq<Token>, b: seq<Token>)
    ensures ScanAll(s, a + b) == match ScanAll(s, a) case Stop => Stop case Go(s1) => ScanAll(s1, b)
    decreases |a|
  {
    hide ScanToken;
    if a == [] {
      assert a + b == b;
    } else {
      assert (a + b)[0] == a[0] && (a + b)[1..] == a[1..] + b;
      match ScanToken(s, a[0])
      case Stop =>
      case Go(s1) => ScanAllAppend(s1, a[1..], b);
    }
  }

  lemma {:induction false} ScanOver(p: seq<Token>, i: nat, toks: seq<Token>, s: Scanner, s1: Scanner)
    requires At(p, i, toks) && ScanAll(s, toks) == Go(s1)
    ensures ScanFrom(p, i, s) == ScanFrom(p, i + |toks|, s1)
    decreases |toks|
  {
    hide ScanToken;
    if toks != [] {
      assert toks == [toks[0]] + toks[1..];
      AtHead(p, i, toks[0], toks[1..]);
      ScanOver(p, i + 1, toks[1..], ScanToken(s, toks[0]).s, s1);
    }
  }

  /** Tokens no scan looks at. */
  predicate Inert(k: Kind) {
    k != If && k != Else && k != ElseIf && k != EndIf && k != While && k != EndWhile &&
    k != For && k != Next && !EndsScript(k)
  }

  /** A scan between statements; a FOR scan looks for a name no inner loop uses. */
  predicate Calm(s: Scanner, names: set<string>) {
    s.ForScan? ==> !s.flag && s.name !in names
  }

  lemma {:induction false} InertAll(s: Scanner, toks: seq<Token>)
    requires Calm(s, {}) && forall t :: t in toks ==> Inert(t.kind)
    ensures ScanAll(s, toks) == Go(s)
    decreases |toks|
  {
    if toks != [] {
      InertToken(s, toks[0]);
      InertAll(s, toks[1..]);
    }
  }

  lemma InertToken(s: Scanner, t: Token)
    requires Calm(s, {}) && Inert(t.kind)
    ensures ScanToken(s, t) == Go(s)
  {
  }

  // Expressions are inert.

  lemma {:induction false} ExprInert(e: Expr)
    ensures forall t :: t in ExprToks(e) ==> Inert(t.kind)
    decreases e, 0
  {
    match e
    case One(t) => TermInert(t);
    case Bin(t, op, rest) => TermInert(t); ExprInert(rest);
  }

  lemma {:induction false} TermInert(t: Term)
    ensures forall x :: x in TermToks(t) ==> Inert(x.kind)
    decreases t, 0
  {
    hide ExprToks, MoreToks;
    match t
    case Atom(_, _) =>
    case Un(u, t1) => TermInert(t1);
    case Paren(e) =>
      ExprInert(e);
      InertBoth(ExprToks(e), [Sign(CloseParen)]);
    case Call(f, args) =>
      CallInert(f, args);
  }

  lemma {:induction false} CallInert(f: nat, args: Arguments)
    ensures forall x :: x in TermToks(Call(f, args)) ==> Inert(x.kind)
    decreases args, 1
  {
    hide ExprToks, MoreToks;
    if args.Arg? {
      ExprInert(args.e);
      MoreInert(args.more);
      InertBoth(ExprToks(args.e), MoreToks(args.more));
    }
  }

  lemma {:induction false} MoreInert(a: Arguments)
    ensures forall x :: x in MoreToks(a) ==> Inert(x.kind)
    decreases a, 0
  {
    if a.Arg? { ExprInert(a.e); MoreInert(a.more); }
  }

  /** Two stretches that leave a scan alone leave it alone together. */
  lemma Both(s: Scanner, s1: Scanner, s2: Scanner, a: seq<Token>, b: seq<Token>)
    requires ScanAll(s, a) == Go(s1) && ScanAll(s1, b) == Go(s2)
    ensures ScanAll(s, a + b) == Go(s2)
  {
    ScanAllAppend(s, a, b);
  }

  lemma Single(s: Scanner, t: Token)
    ensures ScanAll(s, [t]) == ScanToken(s, t)
  {
    hide ScanToken;
    var r := ScanToken(s, t);
    if r.Go? { assert ScanAll(r.s, []) == Go(r.s); }
  }

  // ---------------------------------------------------------------- whole blocks

  lemma {:induction false} BlockNeutral(s: Scanner, b: Block)
    requires Calm(s, LoopNames(b))
    ensures ScanAll(s, BlockToks(b)) == Go(s)
    decreases b, 0
  {
    hide ScanToken;
    match b
    case Nil =>
    case Cons(t, rest) =>
      StmtNeutral(s, t);
      BlockNeutral(s, rest);
      Both(s, s, s, StmtToks(t), BlockToks(rest));
  }

  /** The counter a statement's own keyword raises. */
  function Deeper(s: Scanner, k: Kind): Scanner {
    match s
    case IfScan(n) => if k == If then IfScan(n + 1) else s
    case EndIfScan(n) => if k == If then EndIfScan(n + 1) else s
    case WhileScan(n) => if k == While then WhileScan(n + 1) else s
    case LoopScan(f, w) => if k == For then LoopScan(f + 1, w) else if k == While then LoopScan(f, w + 1) else s
    case ForScan(_, _) => s
  }

  lemma Opens(s: Scanner, k: Kind)
    requires Calm(s, {}) && (k == If || k == While || k == For)
    ensures ScanToken(s, Sign(k)) == Go(Deeper(s, k)) && Calm(Deeper(s, k), {})
  {
  }

  lemma Closes(s: Scanner, k: Kind)
    requires Calm(s, {}) && (k == If || k == While)
    ensures ScanToken(Deeper(s, k), Sign(if k == If then EndIf else EndWhile)) == Go(s)
  {
  }

  lemma Inside(s: Scanner, k: Kind)
    requires Calm(s, {}) && (k == Else || k == ElseIf)
    ensures ScanToken(Deeper(s, If), Sign(k)) == Go(Deeper(s, If))
  {
  }

  lemma NextCloses(s: Scanner, v: string)
    requires Calm(s, {v})
    ensures ScanAll(Deeper(s, For), NextToks(v)) == Go(s)
  {
    var t, u := Sign(Next), Token(Value(Identifier), v);
    var s1 := Deeper(s, For);
    ScanAllAppend(s1, [t], [u]);
    Single(s1, t);
    var s2 := ScanToken(s1, t).s;
    Single(s2, u);
  }

  lemma ExprNeutral(s: Scanner, e: Expr)
    requires Calm(s, {})
    ensures ScanAll(s, ExprToks(e)) == Go(s)
  {
    ExprInert(e);
    InertAll(s, ExprToks(e));
  }

  lemma SetInert(x: Target, e: Expr)
    ensures forall u :: u in StmtToks(SetVar(x, e)) ==> Inert(u.kind)
  {
    hide ExprToks;
    ExprInert(e);
  }

  lemma ClauseInert(c: Clause)
    ensures forall u :: u in ClauseToks(c) ==> Inert(u.kind)
  {
  }

  lemma {:induction false} StmtNeutral(s: Scanner, t: Stmt)
    requires Calm(s, StmtLoopNames(t))
    ensures ScanAll(s, StmtToks(t)) == Go(s)
    decreases t, 1
  {
    hide ScanToken, ScanAll, Deeper, ExprToks, ClauseToks;
    match t
    case Blank(k, text) =>
      Single(s, Token(k.AsKind(), text));
      InertToken(s, Token(k.AsKind(), text));
    case SetVar(x, e) =>
      SetInert(x, e);
      InertAll(s, StmtToks(t));
    case Perform(f, args, tail) =>
      ExprNeutral(s, CallExpr(f, args, tail));
    case Cond(c, b, els) =>
      CondNeutral(s, c, b, els);
    case Loop(c, b) =>
      LoopNeutral(s, c, b);
    case Count(v, e1, e2, e3, b) =>
      CountNeutral(s, v, e1, e2, e3, b);
    case Again =>
      Single(s, Sign(Continue));
      InertToken(s, Sign(Continue));
    case Leave =>
      Single(s, Sign(BreakLoop));
      InertToken(s, Sign(BreakLoop));
    case Stray(v, text) =>
      Single(s, Token(Value(v), text));
      InertToken(s, Token(Value(v), text));
    case Guarded(t1, clause) =>
      StmtNeutral(s, t1);
      ClauseInert(clause);
      InertAll(s, ClauseToks(clause));
      Both(s, s, s, StmtToks(t1), ClauseToks(clause));
  }

  /** The head of a FOR behind the keyword. */
  function HeadToks(v: string, e1: Expr, e2: Expr, e3: Option<Expr>): seq<Token> {
    [Token(Value(Identifier), v)] + ([Sign(Assign)] + (ExprToks(e1) + ([Sign(To)] + (ExprToks(e2) + StepToks(e3)))))
  }

  lemma InertBoth(a: seq<Token>, b: seq<Token>)
    requires (forall x :: x in a ==> Inert(x.kind)) && forall x :: x in b ==> Inert(x.kind)
    ensures forall x :: x in a + b ==> Inert(x.kind)
  {
  }

  lemma SignsInert()
    ensures Inert(Assign) && Inert(To) && Inert(Step) && Inert(Value(Identifier))
  {
  }

  lemma HeadNeutral(s: Scanner, v: string, e1: Expr, e2: Expr, e3: Option<Expr>)
    requires Calm(s, {})
    ensures ScanAll(s, HeadToks(v, e1, e2, e3)) == Go(s)
  {
    hide ScanAll, ExprToks, Inert;
    ExprInert(e1);
    ExprInert(e2);
    if e3.Some? { ExprInert(e3.value); }
    SignsInert();
    var n, a, t := [Token(Value(Identifier), v)], [Sign(Assign)], [Sign(To)];
    InertBoth([Sign(Step)], if e3.Some? then ExprToks(e3.value) else []);
    InertBoth(ExprToks(e2), StepToks(e3));
    InertBoth(t, ExprToks(e2) + StepToks(e3));
    InertBoth(ExprToks(e1), t + (ExprToks(e2) + StepToks(e3)));
    InertBoth(a, ExprToks(e1) + (t + (ExprToks(e2) + StepToks(e3))));
    InertBoth(n, a + (ExprToks(e1) + (t + (ExprToks(e2) + StepToks(e3)))));
    InertAll(s, HeadToks(v, e1, e2, e3));
  }

  lemma CountToks(v: string, e1: Expr, e2: Expr, e3: Option<Expr>, b: Block)
    ensures StmtToks(Count(v, e1, e2, e3, b))
         == [Sign(For)] + (HeadToks(v, e1, e2, e3) + (BlockToks(b) + NextToks(v)))
  {
    var n, a := [Token(Value(Identifier), v)], [Sign(Assign)];
    var x1, t, x2, x3, r := ExprToks(e1), [Sign(To)], ExprToks(e2), StepToks(e3), BlockToks(b) + NextToks(v);
    assert (n + (a + (x1 + (t + (x2 + x3))))) + r == n + (a + (x1 + (t + (x2 + (x3 + r)))));
  }

  lemma {:induction false} CountNeutral(s: Scanner, v: string, e1: Expr, e2: Expr, e3: Option<Expr>, b: Block)
    requires Calm(s, {v} + LoopNames(b))
    ensures ScanAll(s, StmtToks(Count(v, e1, e2, e3, b))) == Go(s)
    decreases b, 1
  {
    hide ScanToken, ScanAll;
    var d := Deeper(s, For);
    Opens(s, For);
    Single(s, Sign(For));
    HeadNeutral(d, v, e1, e2, e3);
    BlockNeutral(d, b);
    NextCloses(s, v);
    Both(d, d, s, BlockToks(b), NextToks(v));
    Both(d, d, s, HeadToks(v, e1, e2, e3), BlockToks(b) + NextToks(v));
    Both(s, d, s, [Sign(For)], HeadToks(v, e1, e2, e3) + (BlockToks(b) + NextToks(v)));
    CountToks(v, e1, e2, e3, b);
  }

  lemma {:induction false} LoopNeutral(s: Scanner, c: Expr, b: Block)
    requires Calm(s, LoopNames(b))
    ensures ScanAll(s, StmtToks(Loop(c, b))) == Go(s)
    decreases b, 1
  {
    hide ScanToken, ScanAll;
    var d := Deeper(s, While);
    Opens(s, While);
    Single(s, Sign(While));
    ExprNeutral(d, c);
    BlockNeutral(d, b);
    Closes(s, While);
    Single(d, Sign(EndWhile));
    Both(d, d, s, BlockToks(b), [Sign(EndWhile)]);
    Both(d, d, s, ExprToks(c), BlockToks(b) + [Sign(EndWhile)]);
    Both(s, d, s, [Sign(While)], ExprToks(c) + (BlockToks(b) + [Sign(EndWhile)]));
  }

  lemma {:induction false} CondNeutral(s: Scanner, c: Expr, b: Block, els: Alternative)
    requires Calm(s, StmtLoopNames(Cond(c, b, els)))
    ensures ScanAll(s, StmtToks(Cond(c, b, els))) == Go(s)
    decreases Cond(c, b, els), 0
  {
    hide ScanToken, ScanAll;
    var d := Deeper(s, If);
    Opens(s, If);
    Single(s, Sign(If));
    ExprNeutral(d, c);
    BlockNeutral(d, b);
    ElseNeutral(s, els);
    Both(d, d, s, BlockToks(b), ElseToks(els));
    Both(d, d, s, ExprToks(c), BlockToks(b) + ElseToks(els));
    Both(s, d, s, [Sign(If)], ExprToks(c) + (BlockToks(b) + ElseToks(els)));
  }

  /** The rest of an IF closes it. */
  lemma {:induction false} ElseNeutral(s: Scanner, e: Alternative)
    requires Calm(s, ElseLoopNames(e))
    ensures ScanAll(Deeper(s, If), ElseToks(e)) == Go(s)
    decreases e, 0
  {
    hide ScanToken, ScanAll;
    var d := Deeper(s, If);
    Opens(s, If);
    Closes(s, If);
    match e
    case NoElse =>
      Single(d, Sign(EndIf));
    case Otherwise(b) =>
      Inside(s, Else);
      Single(d, Sign(Else));
      BlockNeutral(d, b);
      Single(d, Sign(EndIf));
      Both(d, d, s, BlockToks(b), [Sign(EndIf)]);
      Both(d, d, s, [Sign(Else)], BlockToks(b) + [Sign(EndIf)]);
    case OtherIf(c, b, els) =>
      Inside(s, ElseIf);
      Single(d, Sign(ElseIf));
      ExprNeutral(d, c);
      BlockNeutral(d, b);
      ElseNeutral(s, els);
      Both(d, d, s, BlockToks(b), ElseToks(els));
      Both(d, d, s, ExprToks(c), BlockToks(b) + ElseToks(els));
      Both(d, d, s, [Sign(ElseIf)], ExprToks(c) + (BlockToks(b) + ElseToks(els)));
  }
}
