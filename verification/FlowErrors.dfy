/** Scripts that are no proper ones: IF, WHILE and FOR that are never closed, and CONTINUE, BREAK_LOOP
    and END_WHILE outside of any loop. */
module FlowErrors {
  import opened Tokens
  import opened Programs
  import opened ExpressionTree
  import opened Flow
  import opened Structured
  import opened FlowScans
  import opened FlowTurns
  import opened FlowLoops

  /** A block with nothing behind it but the end of the program. */
  predicate Last(p: seq<Token>, i: nat, b: Block) {
    At(p, i, BlockToks(b)) && i + |BlockToks(b)| == |p|
  }

  /** No scan finds what it looks for in a block. */
  lemma ScanFails(p: seq<Token>, i: nat, s: Scanner, b: Block)
    requires Last(p, i, b) && Calm(s, LoopNames(b))
    ensures i <= |p| && ScanFrom(p, i, s) == |p| && Follows(RawAt(p, i).kind) && Follows(RawAt(p, |p|).kind)
  {
    hide At, ScanFrom, BlockToks;
    AtBound(p, i, BlockToks(b));
    assert BlockToks(b) + [] == BlockToks(b);
    FirstFollows(p, i, b);
    PassBlock(p, i, s, b, []);
    assert ScanFrom(p, |p|, s) == |p| by { ScanStep(p, |p|, s); }
  }

  /** A condition in front of a block. */
  lemma CondLayout(l: Lang, p: seq<Token>, st: St, c: Expr, b: Block)
    requires At(p, st.idx, ExprToks(c) + BlockToks(b)) && st.idx + |ExprToks(c)| + |BlockToks(b)| == |p|
    ensures var n := st.idx + |ExprToks(c)|;
            n <= |p| && Last(p, n, b) && Computes(Flow.Expr(l, p, st), n, Compute(l, c, st.env))
  {
    hide At, ExprToks, BlockToks, Compute, Flow.Expr;
    AtSplit(p, st.idx, ExprToks(c), BlockToks(b));
    var n := st.idx + |ExprToks(c)|;
    ScanFails(p, n, IfScan(0), b);
    FollowsMeans(RawAt(p, n).kind);
    ExprComputes(l, p, st, c);
  }

  /** An IF without END_IF: a condition that holds leads into the branch, and one that does not is an
      error. */
  lemma UnclosedIf(l: Lang, p: seq<Token>, st: St, c: Expr, b: Block)
    requires At(p, st.idx, [Sign(If)] + (ExprToks(c) + BlockToks(b)))
             && st.idx + 1 + |ExprToks(c)| + |BlockToks(b)| == |p|
    ensures match Compute(l, c, st.env)
            case TooLong(v) => Ends(Turn(l, p, st), Exited, v)
            case Failing(v) => Ends(Turn(l, p, st), Aborted, v)
            case Got(t, v) =>
              if l.truth(t) then Turn(l, p, st) == Running(st.(idx := st.idx + 1 + |ExprToks(c)|, env := v))
              else Ends(Turn(l, p, st), Aborted, v)
  {
    hide Turn, At, ExprToks, BlockToks, Compute, Flow.Expr, ScanFrom, CmdIf, OnError, Settle, Follows;
    AtHead(p, st.idx, Sign(If), ExprToks(c) + BlockToks(b));
    var st1 := st.(idx := st.idx + 1);
    CondLayout(l, p, st1, c, b);
    var n := st1.idx + |ExprToks(c)|;
    ScanFails(p, n, IfScan(0), b);
    CmdIfRuns(l, p, st1);
    IfKeyword(l, p, st);
    SettleCases(p, CmdIf(l, p, st1));
    ErrorCases(p, CmdIf(l, p, st1).st);
  }

  /** A WHILE without END_WHILE. */
  lemma UnclosedWhile(l: Lang, p: seq<Token>, st: St, c: Expr, b: Block)
    requires At(p, st.idx, [Sign(While)] + (ExprToks(c) + BlockToks(b)))
             && st.idx + 1 + |ExprToks(c)| + |BlockToks(b)| == |p|
    ensures match Compute(l, c, st.env)
            case TooLong(v) => Ends(Turn(l, p, st), Exited, v)
            case Failing(v) => Ends(Turn(l, p, st), Aborted, v)
            case Got(t, v) =>
              if l.truth(t) then
                Turn(l, p, st) == Running(St(st.idx + 1 + |ExprToks(c)|, v, st.wn + 1, st.fn,
                                             st.sc[WhileVar(st.wn + 1) := Index(st.idx)]))
              else Ends(Turn(l, p, st), Aborted, v)
  {
    hide Turn, At, ExprToks, BlockToks, Compute, Flow.Expr, ScanFrom, OnError, Settle, Follows;
    AtHead(p, st.idx, Sign(While), ExprToks(c) + BlockToks(b));
    var st1 := st.(idx := st.idx + 1);
    var st2 := st1.(wn := st.wn + 1, sc := st.sc[WhileVar(st.wn + 1) := Index(st.idx)]);
    CondLayout(l, p, st1, c, b);
    var n := st1.idx + |ExprToks(c)|;
    ScanFails(p, n, WhileScan(0), b);
    assert Flow.Expr(l, p, st2) == Flow.Expr(l, p, st1) by { SameExpr(l, p, st1, st2); }
    WhileKeyword(l, p, st);
    SettleCases(p, CmdWhile(l, p, st.idx, st1));
    ErrorCases(p, CmdWhile(l, p, st.idx, st1).st);
  }

  lemma SameExpr(l: Lang, p: seq<Token>, st: St, st1: St)
    requires st.idx == st1.idx <= |p| && st.env == st1.env
    ensures Flow.Expr(l, p, st) == Flow.Expr(l, p, st1)
  {
  }

  /** The head of a FOR without STEP. */
  function ForHead(v: string, e1: Expr, e2: Expr): seq<Token> { [Sign(For)] + HeadToks(v, e1, e2, None) }

  /** An empty FOR without NEXT is an error; with something to count it begins all the same. */
  lemma UnclosedFor(l: Lang, p: seq<Token>, st: St, v: string, e1: Expr, e2: Expr, b: Block)
    requires At(p, st.idx, ForHead(v, e1, e2) + BlockToks(b))
             && st.idx + |ForHead(v, e1, e2)| + |BlockToks(b)| == |p| && v !in LoopNames(b)
    ensures match Enter(l, v, e1, e2, None, st.env)
            case EntryQuits(_) => true
            case EntryFails(_) => true
            case Entry(t1, t2, t3, w) =>
              if l.num(t1) > l.num(t2) then Ends(Turn(l, p, st), Aborted, w)
              else Turn(l, p, st) == Running(ForState(st, st.idx + |ForHead(v, e1, e2)|, Entry(t1, t2, t3, w)))
  {
    hide Turn, At, ExprToks, BlockToks, Compute, Flow.Expr, ScanFrom, CmdFor, ForTo, ForStep, SkipFor, OnError, Settle,
         Follows, HeadToks;
    var head := HeadToks(v, e1, e2, None);
    assert ForHead(v, e1, e2) + BlockToks(b) == [Sign(For)] + (head + BlockToks(b));
    AtHead(p, st.idx, Sign(For), head + BlockToks(b));
    AtSplit(p, st.idx + 1, head, BlockToks(b));
    var j1, j2 := HeadLayout(p, st.idx + 1, v, e1, e2, None);
    var st1, n := st.(idx := st.idx + 1), st.idx + 1 + |head|;
    assert j2 == n;
    ForKeyword(l, p, st);
    ForCmdStarts(l, p, st1, v, e1, j1);
    var c := Compute(l, e1, st.env);
    if c.Got? {
      var st2 := st1.(fn := st.fn + 1, idx := j1, env := c.env[v := c.text]);
      ForToRuns(l, p, v, l.num(c.text), st2);
      BodyPlain(p, n, b);
      ExprComputes(l, p, st2.(idx := j1 + 1), e2);
      var d := Compute(l, e2, st2.env);
      if d.Got? {
        var st3 := st2.(idx := n, env := d.env, sc := st2.sc[ToVar(st2.fn) := Text(d.text)]);
        ForStepRuns(l, p, v, l.num(c.text), l.num(d.text), st3);
        var st4 := ForSaved(st3, "1");
        SkipUnclosed(p, v, l.num(c.text), l.num(d.text), st4, b);
        var out := CmdFor(l, p, st1);
        SettleCases(p, out);
        ErrorCases(p, out.st);
        EnterPlain(l, v, e1, e2, st.env);
      }
    }
  }

  lemma BodyPlain(p: seq<Token>, n: nat, b: Block)
    requires Last(p, n, b)
    ensures n <= |p| && Follows(RawAt(p, n).kind) && !IsOperator(RawAt(p, n).kind) && RawAt(p, n).kind != Step
  {
    hide Last, BlockToks;
    ScanFails(p, n, IfScan(0), b);
  }

  lemma EnterPlain(l: Lang, v: string, e1: Expr, e2: Expr, env: Env)
    ensures var c := Compute(l, e1, env);
            c.Got? ==> var d := Compute(l, e2, c.env[v := c.text]);
                       d.Got? ==> Enter(l, v, e1, e2, None, env) == Entry(c.text, d.text, "1", d.env)
  {
    hide Compute;
  }

  /** The skip of an empty FOR that finds no NEXT of its name. */
  lemma SkipUnclosed(p: seq<Token>, v: string, x: int, y: int, st: St, b: Block)
    requires Last(p, st.idx, b) && st.idx <= |p| && v !in LoopNames(b)
    ensures SkipFor(p, v, x, y, st, Fine) == if x <= y then CmdOut(st, Fine) else CmdOut(st.(fn := st.fn - 1), Bad)
  {
    hide ScanFrom, BlockToks, Last;
    ScanFails(p, st.idx, ForScan(v, false), b);
  }

  // ---------------------------------------------------------------- outside of loops

  /** BREAK_LOOP and CONTINUE with no loop around them skip the rest of the script, up to the end of the
      program. */
  lemma OutsideLoops(l: Lang, p: seq<Token>, st: St, b: Block)
    requires st.idx < |p| && Last(p, st.idx + 1, b) && (p[st.idx] == Sign(BreakLoop) || p[st.idx] == Sign(Continue))
    ensures Turn(l, p, st) == Running(st.(idx := |p|))
  {
    hide Turn, ScanFrom, Last, CmdIf;
    ScanFails(p, st.idx + 1, LoopScan(0, 0), b);
    if p[st.idx] == Sign(BreakLoop) {
      BreakLoopKeyword(l, p, st);
    } else {
      ContinueKeyword(l, p, st);
    }
  }

  /** END_WHILE with no WHILE open is passed over. */
  lemma EndWhileAlone(l: Lang, p: seq<Token>, st: St)
    requires st.idx < |p| && p[st.idx] == Sign(EndWhile) && st.wn < 1
    ensures Turn(l, p, st) == Running(st.(idx := st.idx + 1))
  {
    hide Turn;
    EndWhileKeyword(l, p, st);
  }
}
