/** One round of `execute` at the tokens of WHILE, FOR, CONTINUE and BREAK_LOOP. */
module FlowLoops {
  import opened Tokens
  import opened Programs
  import opened Expression
  import opened ExpressionTree
  import opened Flow
  import opened Machine
  import opened Structured
  import opened FlowScans
  import opened FlowTurns

  // ---------------------------------------------------------------- WHILE

  function LoopToks(c: Expr, b: Block): seq<Token> {
    [Sign(While)] + (ExprToks(c) + (BlockToks(b) + [Sign(EndWhile)]))
  }

  lemma EndWhileFollows()
    ensures Follows(EndWhile)
  {
  }

  /** The tokens of a WHILE in their places. */
  lemma LoopParts(p: seq<Token>, i: nat, c: Expr, b: Block)
    requires At(p, i, LoopToks(c, b))
    ensures var n := i + 1 + |ExprToks(c)|;
            var m := n + |BlockToks(b)|;
            && i < n <= m < |p| && p[i] == Sign(While) && p[m] == Sign(EndWhile)
            && At(p, i + 1, ExprToks(c)) && At(p, n, BlockToks(b)) && At(p, n, BlockToks(b) + [Sign(EndWhile)])
  {
    hide At, ExprToks, BlockToks;
    var n := i + 1 + |ExprToks(c)|;
    var m := n + |BlockToks(b)|;
    AtHead(p, i, Sign(While), ExprToks(c) + (BlockToks(b) + [Sign(EndWhile)]));
    AtSplit(p, i + 1, ExprToks(c), BlockToks(b) + [Sign(EndWhile)]);
    AtSplit(p, n, BlockToks(b), [Sign(EndWhile)]);
    assert [Sign(EndWhile)] + [] == [Sign(EndWhile)];
    AtHead(p, m, Sign(EndWhile), []);
  }

  lemma ScanToEndWhile(p: seq<Token>, n: nat, b: Block)
    requires At(p, n, BlockToks(b) + [Sign(EndWhile)]) && n + |BlockToks(b)| < |p|
             && p[n + |BlockToks(b)|] == Sign(EndWhile)
    ensures ScanFrom(p, n, WhileScan(0)) == n + |BlockToks(b)|
  {
    hide At, ScanFrom, BlockToks;
    PassBlock(p, n, WhileScan(0), b, [Sign(EndWhile)]);
    ScanStops(p, n + |BlockToks(b)|, WhileScan(0));
  }

  lemma LoopLayout(l: Lang, p: seq<Token>, st: St, c: Expr, b: Block)
    requires At(p, st.idx, LoopToks(c, b))
    ensures var n := st.idx + 1 + |ExprToks(c)|;
            var m := n + |BlockToks(b)|;
            && st.idx < n <= m < |p| && p[st.idx] == Sign(While) && p[m] == Sign(EndWhile)
            && At(p, n, BlockToks(b)) && Follows(RawAt(p, n).kind)
            && ScanFrom(p, n, WhileScan(0)) == m
    ensures Computes(Flow.Expr(l, p, st.(idx := st.idx + 1)), st.idx + 1 + |ExprToks(c)|, Compute(l, c, st.env))
  {
    hide At, ScanFrom, Flow.Expr, Compute, Computes, ExprToks, BlockToks, Follows, LoopToks;
    LoopParts(p, st.idx, c, b);
    var n := st.idx + 1 + |ExprToks(c)|;
    EndWhileFollows();
    FirstFollows(p, n, b);
    ScanToEndWhile(p, n, b);
    FollowsMeans(RawAt(p, n).kind);
    ExprComputes(l, p, st.(idx := st.idx + 1), c);
  }

  /** WHILE saves its own index one level deeper; a false condition leaves that level again. */
  lemma WhileTurn(l: Lang, p: seq<Token>, st: St, c: Expr, b: Block)
    requires At(p, st.idx, LoopToks(c, b))
    ensures var n := st.idx + 1 + |ExprToks(c)|;
            var w, sc := st.wn + 1, st.sc[WhileVar(st.wn + 1) := Index(st.idx)];
            match Compute(l, c, st.env)
            case TooLong(v) => Ends(Turn(l, p, st), Exited, v)
            case Failing(v) => Ends(Turn(l, p, st), Aborted, v)
            case Got(t, v) =>
              if l.truth(t) then n <= |p| && Turn(l, p, st) == Running(St(n, v, w, st.fn, sc))
              else var end := st.idx + |LoopToks(c, b)|;
                   end <= |p| && Turn(l, p, st) == Running(St(end, v, st.wn, st.fn, sc))
  {
    hide Turn;
    hide At, ScanFrom, Evaluate, Compute, CmdWhile, ExprToks, BlockToks;
    hide Computes;
    LoopLayout(l, p, st, c, b);
    WhileCmd(l, p, st, c, b);
    WhileKeyword(l, p, st);
  }

  lemma WhileCmd(l: Lang, p: seq<Token>, st: St, c: Expr, b: Block)
    requires At(p, st.idx, LoopToks(c, b)) && st.idx < |p|
    ensures var n := st.idx + 1 + |ExprToks(c)|;
            var st1 := st.(wn := st.wn + 1, sc := st.sc[WhileVar(st.wn + 1) := Index(st.idx)]);
            var out := CmdWhile(l, p, st.idx, st.(idx := st.idx + 1));
            match Compute(l, c, st.env)
            case TooLong(v) => out.ret == Exit && out.st.env == v
            case Failing(v) => out == CmdOut(st1.(idx := n, env := v), Bad)
            case Got(t, v) =>
              if l.truth(t) then out == CmdOut(st1.(idx := n, env := v), Fine)
              else out == CmdOut(st1.(idx := st.idx + |LoopToks(c, b)|, env := v, wn := st.wn), Fine)
  {
    hide At, ScanFrom, Evaluate, Compute, ExprToks, BlockToks, Follows;
    LoopLayout(l, p, st, c, b);
  }

  lemma EndWhileTurn(l: Lang, p: seq<Token>, st: St, i: nat)
    requires st.idx < |p| && p[st.idx] == Sign(EndWhile) && i <= |p|
    requires st.wn >= 1 && WhileVar(st.wn) in st.sc && st.sc[WhileVar(st.wn)] == Index(i)
    ensures Turn(l, p, st) == Running(st.(idx := i, wn := st.wn - 1))
  {
    hide Turn;
    EndWhileKeyword(l, p, st);
  }

  // ---------------------------------------------------------------- CONTINUE and BREAK_LOOP

  lemma ContinueTurn(l: Lang, p: seq<Token>, st: St, close: nat)
    requires st.idx < |p| && p[st.idx] == Sign(Continue)
    requires ScanFrom(p, st.idx + 1, LoopScan(0, 0)) == close < |p| && !EndsScript(p[close].kind)
    ensures Turn(l, p, st) == Running(st.(idx := close))
  {
    hide Turn;
    hide ScanFrom;
    ContinueKeyword(l, p, st);
  }

  lemma BreakTurn(l: Lang, p: seq<Token>, st: St, close: nat)
    requires st.idx < |p| && p[st.idx] == Sign(BreakLoop)
    requires ScanFrom(p, st.idx + 1, LoopScan(0, 0)) == close < |p| && p[close].kind == EndWhile
    ensures Turn(l, p, st) == Running(st.(idx := close + 1, wn := st.wn - 1))
  {
    hide Turn;
    hide ScanFrom;
    BreakLoopKeyword(l, p, st);
  }

  /** BREAK_LOOP out of a FOR goes behind the loop's NEXT and leaves the nest one too high; NEXT
      itself would have lowered it. */
  lemma BreakForTurn(l: Lang, p: seq<Token>, st: St, close: nat)
    requires st.idx < |p| && p[st.idx] == Sign(BreakLoop) && close + 1 < |p|
    requires ScanFrom(p, st.idx + 1, LoopScan(0, 0)) == close && p[close].kind == Next
    ensures Turn(l, p, st) == Running(st.(idx := close + 2)) && Turn(l, p, st).st.fn == st.fn
  {
    hide Turn;
    hide ScanFrom;
    BreakLoopKeyword(l, p, st);
  }

  // ---------------------------------------------------------------- FOR

  /** The values a FOR computes on entry, in order; the loop variable is set before the limit. */
  datatype Entered =
    | Entry(t1: string, t2: string, t3: string, env: Env)
    | EntryFails(env: Env)
    | EntryQuits(env: Env)

  function Enter(l: Lang, v: string, e1: Expr, e2: Expr, e3: Option<Expr>, env: Env): Entered {
    match Compute(l, e1, env)
    case TooLong(w) => EntryQuits(w)
    case Failing(w) => EntryFails(w)
    case Got(t1, w1) =>
      match Compute(l, e2, w1[v := t1])
      case TooLong(w) => EntryQuits(w)
      case Failing(w) => EntryFails(w)
      case Got(t2, w2) =>
        match (if e3.None? then Got("1", w2) else Compute(l, e3.value, w2))
        case TooLong(w) => EntryQuits(w)
        case Failing(w) => EntryFails(w)
        case Got(t3, w3) => Entry(t1, t2, t3, w3)
  }

  /** Where the parts of a FOR stand: the name at `i`, TO at `j1`, STEP or the body at `j2`, the
      body at `n`; behind its NEXT the loop ends at `end`. */
  ghost predicate ForStands(p: seq<Token>, i: nat, v: string, e1: Expr, e2: Expr, e3: Option<Expr>,
                            j1: nat, j2: nat, n: nat, end: nat)
  {
    && j1 == i + 2 + |ExprToks(e1)| && j2 == j1 + 1 + |ExprToks(e2)| && n == j2 + |StepToks(e3)|
    && n < end <= |p|
    && p[i] == Token(Value(Identifier), v) && p[i + 1] == Sign(Assign) && p[j1] == Sign(To)
    && At(p, i + 2, ExprToks(e1)) && At(p, j1 + 1, ExprToks(e2)) && At(p, j2, StepToks(e3))
    && Follows(RawAt(p, n).kind) && RawAt(p, end).kind != NoError && RawAt(p, end).kind != Error
    && ScanFrom(p, n, ForScan(v, false)) == end - 1 && ScanFrom(p, j2, ForScan(v, false)) == end - 1
  }

  /** The state behind the head: limits and the return index one level deeper. */
  function ForState(st: St, n: nat, r: Entered): St
    requires r.Entry?
  {
    var f := st.fn + 1;
    St(n, r.env, st.wn, f, st.sc[ToVar(f) := Text(r.t2)][StepVar(f) := Text(r.t3)][ForVar(f) := Index(n)])
  }

  /** The error outcome: what stands at the cursor does not catch it. */
  ghost predicate Uncaught(p: seq<Token>, out: CmdOut, env: Env) {
    out.ret == Bad && out.st.env == env && RawAt(p, out.st.idx).kind != NoError && RawAt(p, out.st.idx).kind != Error
  }

  ghost predicate ForEnters(l: Lang, p: seq<Token>, out: CmdOut, st: St, n: nat, end: nat, r: Entered) {
    match r
    case EntryQuits(w) => out.ret == Exit && out.st.env == w
    case EntryFails(w) => Uncaught(p, out, w)
    case Entry(t1, t2, _, _) =>
      var st1 := ForState(st, n, r);
      out == if l.num(t1) <= l.num(t2) then CmdOut(st1, Fine) else CmdOut(st1.(fn := st.fn, idx := end), Fine)
  }

  lemma StepStands(p: seq<Token>, j2: nat, e3: Option<Expr>, n: nat)
    requires At(p, j2, StepToks(e3)) && n == j2 + |StepToks(e3)| && Follows(RawAt(p, n).kind)
    ensures e3.None? ==> j2 == n
    ensures e3.Some? ==>
              j2 < |p| && p[j2] == Sign(Step) && At(p, j2 + 1, ExprToks(e3.value)) && n == j2 + 1 + |ExprToks(e3.value)|
    ensures !IsOperator(RawAt(p, j2).kind) && RawAt(p, j2).kind != NoError && RawAt(p, j2).kind != Error
  {
    hide At;
    if e3.Some? {
      AtHead(p, j2, Sign(Step), ExprToks(e3.value));
    }
  }

  // The three parts of `cmd_for` in terms of the expressions they compute.

  lemma CmdForRuns(l: Lang, p: seq<Token>, st: St, v: string)
    requires st.idx + 1 < |p| && p[st.idx] == Token(Value(Identifier), v) && p[st.idx + 1] == Sign(Assign)
    ensures var st1 := st.(fn := st.fn + 1, idx := st.idx + 2);
            var o := Flow.Expr(l, p, st1);
            CmdFor(l, p, st) == if !o.status.Ok? then CmdOut(Moved(st1, o), RetOf(o.status))
                                else ForTo(l, p, v, l.num(o.token), Moved(st1, o).(env := o.env[v := o.token]))
  {
    hide Flow.Expr, ForTo;
  }

  lemma ForToRuns(l: Lang, p: seq<Token>, v: string, x: int, st: St)
    requires st.idx < |p| && p[st.idx] == Sign(To)
    ensures var st0 := st.(idx := st.idx + 1);
            var o := Flow.Expr(l, p, st0);
            var st1 := Moved(st0, o);
            ForTo(l, p, v, x, st) == if o.status.Err? then SkipFor(p, v, x, 0, st1, Bad)
                                     else if !o.status.Ok? then CmdOut(st1, RetOf(o.status))
                                     else ForStep(l, p, v, x, l.num(o.token),
                                                  st1.(sc := st1.sc[ToVar(st1.fn) := Text(o.token)]))
  {
    hide Flow.Expr, ForStep, SkipFor;
  }

  lemma SkipRuns(p: seq<Token>, v: string, x: int, y: int, st: St, end: nat)
    requires st.idx <= |p| && 0 < end <= |p| && ScanFrom(p, st.idx, ForScan(v, false)) == end - 1
    ensures SkipFor(p, v, x, y, st, Fine) == CmdOut(if x <= y then st else st.(fn := st.fn - 1, idx := end), Fine)
  {
    hide ScanFrom;
  }

  lemma SkipFails(p: seq<Token>, v: string, x: int, y: int, st: St, end: nat)
    requires st.idx <= |p| && 0 < end <= |p| && ScanFrom(p, st.idx, ForScan(v, false)) == end - 1
    requires RawAt(p, st.idx).kind != NoError && RawAt(p, st.idx).kind != Error
    requires RawAt(p, end).kind != NoError && RawAt(p, end).kind != Error
    ensures Uncaught(p, SkipFor(p, v, x, y, st, Bad), st.env)
  {
    hide ScanFrom;
  }

  lemma ForStepRuns(l: Lang, p: seq<Token>, v: string, x: int, y: int, st: St)
    requires st.idx <= |p|
    ensures RawAt(p, st.idx).kind != Step ==> ForStep(l, p, v, x, y, st) == SkipFor(p, v, x, y, ForSaved(st, "1"), Fine)
    ensures RawAt(p, st.idx).kind == Step ==>
              st.idx < |p| &&
              var o := Flow.Expr(l, p, st.(idx := st.idx + 1));
              var st1 := Moved(st, o);
              ForStep(l, p, v, x, y, st) == if o.status.Fatal? || o.status.Hang? then CmdOut(st1, RetOf(o.status))
                                            else SkipFor(p, v, x, y, ForSaved(st1, o.token), RetOf(o.status))
  {
    hide Flow.Expr, SkipFor;
  }

  /** From STEP on, with the limits `x` and `y` known. */
  lemma ForStepEnters(l: Lang, p: seq<Token>, st: St, i: nat, v: string, e1: Expr, e2: Expr, e3: Option<Expr>,
                      j1: nat, n: nat, end: nat, x: int, y: int)
    requires ForStands(p, i, v, e1, e2, e3, j1, st.idx, n, end)
    ensures var out := ForStep(l, p, v, x, y, st);
            match (if e3.None? then Got("1", st.env) else Compute(l, e3.value, st.env))
            case TooLong(w) => out.ret == Exit && out.st.env == w
            case Failing(w) => Uncaught(p, out, w)
            case Got(t3, w) =>
              var st1 := ForSaved(st.(idx := n, env := w), t3);
              out == if x <= y then CmdOut(st1, Fine) else CmdOut(st1.(fn := st.fn - 1, idx := end), Fine)
  {
    hide At, ScanFrom, Flow.Expr, Compute, ForStep, SkipFor, ExprToks, Follows;
    StepStands(p, st.idx, e3, n);
    FollowsMeans(RawAt(p, n).kind);
    ForStepRuns(l, p, v, x, y, st);
    if e3.Some? {
      ExprComputes(l, p, st.(idx := st.idx + 1), e3.value);
      var c := Compute(l, e3.value, st.env);
      if c.Got? { SkipRuns(p, v, x, y, ForSaved(st.(idx := n, env := c.env), c.text), end); }
      if c.Failing? { SkipFails(p, v, x, y, ForSaved(st.(idx := n, env := c.env), ""), end); }
    } else {
      SkipRuns(p, v, x, y, ForSaved(st, "1"), end);
    }
  }

  /** From TO on, the loop variable set. */
  lemma ForToEnters(l: Lang, p: seq<Token>, st: St, i: nat, v: string, e1: Expr, e2: Expr, e3: Option<Expr>,
                    j2: nat, n: nat, end: nat, x: int)
    requires ForStands(p, i, v, e1, e2, e3, st.idx, j2, n, end)
    ensures var out := ForTo(l, p, v, x, st);
            match Compute(l, e2, st.env)
            case TooLong(w) => out.ret == Exit && out.st.env == w
            case Failing(w) => Uncaught(p, out, w)
            case Got(t2, w) =>
              out == ForStep(l, p, v, x, l.num(t2), st.(idx := j2, env := w, sc := st.sc[ToVar(st.fn) := Text(t2)]))
  {
    hide At, ScanFrom, Flow.Expr, Compute, ForTo, ForStep, StepToks, ExprToks, Follows;
    StepStands(p, j2, e3, n);
    ForToRuns(l, p, v, x, st);
    ExprComputes(l, p, st.(idx := st.idx + 1), e2);
  }

  lemma ForCmdStarts(l: Lang, p: seq<Token>, st: St, v: string, e1: Expr, j1: nat)
    requires j1 == st.idx + 2 + |ExprToks(e1)| < |p| && At(p, st.idx + 2, ExprToks(e1))
    requires p[st.idx] == Token(Value(Identifier), v) && p[st.idx + 1] == Sign(Assign) && p[j1] == Sign(To)
    ensures var out := CmdFor(l, p, st);
            match Compute(l, e1, st.env)
            case TooLong(w) => out.ret == Exit && out.st.env == w
            case Failing(w) => Uncaught(p, out, w)
            case Got(t1, w) => out == ForTo(l, p, v, l.num(t1), st.(fn := st.fn + 1, idx := j1, env := w[v := t1]))
  {
    hide At, ScanFrom, Flow.Expr, Compute, CmdFor, ForTo, ExprToks, StepToks;
    assert RawAt(p, j1) == Sign(To);
    CmdForRuns(l, p, st, v);
    ExprComputes(l, p, st.(fn := st.fn + 1, idx := st.idx + 2), e1);
  }

  lemma ForCmdEnters(l: Lang, p: seq<Token>, st: St, v: string, e1: Expr, e2: Expr, e3: Option<Expr>,
                     j1: nat, j2: nat, n: nat, end: nat)
    requires ForStands(p, st.idx, v, e1, e2, e3, j1, j2, n, end)
    ensures ForEnters(l, p, CmdFor(l, p, st), st, n, end, Enter(l, v, e1, e2, e3, st.env))
  {
    hide At, ScanFrom, Compute, CmdFor, ForStep, ForTo, ExprToks, Uncaught, Follows;
    ForCmdStarts(l, p, st, v, e1, j1);
    var c := Compute(l, e1, st.env);
    if c.Got? {
      var st2 := st.(fn := st.fn + 1, idx := j1, env := c.env[v := c.text]);
      ForToEnters(l, p, st2, st.idx, v, e1, e2, e3, j2, n, end, l.num(c.text));
      var d := Compute(l, e2, st2.env);
      if d.Got? {
        ForStepEnters(l, p, st2.(idx := j2, env := d.env, sc := st.sc[ToVar(st2.fn) := Text(d.text)]),
                      st.idx, v, e1, e2, e3, j1, n, end, l.num(c.text), l.num(d.text));
      }
    }
  }

  lemma ForTurn(l: Lang, p: seq<Token>, st: St, v: string, e1: Expr, e2: Expr, e3: Option<Expr>,
                j1: nat, j2: nat, n: nat, end: nat)
    requires st.idx < |p| && p[st.idx] == Sign(For)
    requires ForStands(p, st.idx + 1, v, e1, e2, e3, j1, j2, n, end)
    ensures var c := Turn(l, p, st);
            match Enter(l, v, e1, e2, e3, st.env)
            case EntryQuits(w) => Ends(c, Exited, w)
            case EntryFails(w) => Ends(c, Aborted, w)
            case Entry(t1, t2, t3, w) =>
              var st1 := ForState(st, n, Entry(t1, t2, t3, w));
              c == Running(if l.num(t1) <= l.num(t2) then st1 else st1.(fn := st.fn, idx := end))
  {
    hide Turn, CmdFor, Enter, ForStands;
    ForKeyword(l, p, st);
    ForCmdEnters(l, p, st.(idx := st.idx + 1), v, e1, e2, e3, j1, j2, n, end);
  }

  lemma NextStands(p: seq<Token>, m: nat, v: string)
    requires At(p, m, NextToks(v))
    ensures m + 1 < |p| && p[m] == Sign(Next) && p[m + 1] == Token(Value(Identifier), v)
  {
    hide At;
    var name := Token(Value(Identifier), v);
    AtHead(p, m, Sign(Next), [name]);
    assert [name] + [] == [name];
    AtHead(p, m + 1, name, []);
  }

  /** The tokens of a FOR in their places. */
  lemma ForLayout(p: seq<Token>, i: nat, v: string, e1: Expr, e2: Expr, e3: Option<Expr>, b: Block)
    returns (j1: nat, j2: nat)
    requires var toks := StmtToks(Count(v, e1, e2, e3, b));
             At(p, i, toks) && v !in LoopNames(b) && Follows(RawAt(p, i + |toks|).kind)
    ensures var n := i + 1 + |HeadToks(v, e1, e2, e3)|;
            var m := n + |BlockToks(b)|;
            && i < n <= m && m + 1 < |p| && m + 2 == i + |StmtToks(Count(v, e1, e2, e3, b))|
            && p[i] == Sign(For) && At(p, n, BlockToks(b))
            && p[m] == Sign(Next) && p[m + 1] == Token(Value(Identifier), v)
            && ForStands(p, i + 1, v, e1, e2, e3, j1, j2, n, m + 2)
  {
    hide At, ScanFrom, ExprToks, BlockToks, StepToks, Follows, HeadToks, NextToks, LoopNames;
    CountToks(v, e1, e2, e3, b);
    var head := HeadToks(v, e1, e2, e3);
    AtHead(p, i, Sign(For), head + (BlockToks(b) + NextToks(v)));
    AtSplit(p, i + 1, head, BlockToks(b) + NextToks(v));
    var n := i + 1 + |head|;
    AtSplit(p, n, BlockToks(b), NextToks(v));
    var m := n + |BlockToks(b)|;
    NextStands(p, m, v);
    NextSize(v);
    NextFollows();
    FirstFollows(p, n, b);
    ForSkips(p, n, v, b);
    j1, j2 := HeadLayout(p, i + 1, v, e1, e2, e3);
    StepSkipped(p, j2, v, e3);
  }

  lemma NextSize(v: string)
    ensures |NextToks(v)| == 2
  {
  }

  lemma NextFollows()
    ensures Follows(Next) && forall k :: Follows(k) ==> k != NoError && k != Error
  {
  }

  lemma HeadLayout(p: seq<Token>, i: nat, v: string, e1: Expr, e2: Expr, e3: Option<Expr>) returns (j1: nat, j2: nat)
    requires At(p, i, HeadToks(v, e1, e2, e3))
    ensures j1 == i + 2 + |ExprToks(e1)| && j2 == j1 + 1 + |ExprToks(e2)|
    ensures j2 + |StepToks(e3)| == i + |HeadToks(v, e1, e2, e3)| <= |p| && j1 < |p|
    ensures p[i] == Token(Value(Identifier), v) && p[i + 1] == Sign(Assign) && p[j1] == Sign(To)
    ensures At(p, i + 2, ExprToks(e1)) && At(p, j1 + 1, ExprToks(e2)) && At(p, j2, StepToks(e3))
  {
    hide At, ExprToks, StepToks;
    var x3 := ExprToks(e2) + StepToks(e3);
    var x2 := ExprToks(e1) + ([Sign(To)] + x3);
    AtHead(p, i, Token(Value(Identifier), v), [Sign(Assign)] + x2);
    AtHead(p, i + 1, Sign(Assign), x2);
    AtSplit(p, i + 2, ExprToks(e1), [Sign(To)] + x3);
    j1 := i + 2 + |ExprToks(e1)|;
    AtHead(p, j1, Sign(To), x3);
    j2 := j1 + 1 + |ExprToks(e2)|;
    AtSplit(p, j1 + 1, ExprToks(e2), StepToks(e3));
  }

  /** The skip of an empty range finds the NEXT of its own loop. */
  lemma ForSkips(p: seq<Token>, n: nat, v: string, b: Block)
    requires At(p, n, BlockToks(b) + NextToks(v)) && v !in LoopNames(b)
    ensures ScanFrom(p, n, ForScan(v, false)) == n + |BlockToks(b)| + 1
  {
    hide At, ScanFrom, BlockToks;
    PassBlock(p, n, ForScan(v, false), b, NextToks(v));
    var m := n + |BlockToks(b)|;
    AtSplit(p, n, BlockToks(b), NextToks(v));
    NextStands(p, m, v);
    ScanGoes(p, m, ForScan(v, false), ForScan(v, true));
    ScanStops(p, m + 1, ForScan(v, true));
  }

  lemma StepSkipped(p: seq<Token>, j2: nat, v: string, e3: Option<Expr>)
    requires At(p, j2, StepToks(e3))
    ensures ScanFrom(p, j2, ForScan(v, false)) == ScanFrom(p, j2 + |StepToks(e3)|, ForScan(v, false))
  {
    hide At, ScanFrom, ScanAll;
    if e3.Some? { ExprInert(e3.value); }
    InertAll(ForScan(v, false), StepToks(e3));
    ScanOver(p, j2, StepToks(e3), ForScan(v, false), ForScan(v, false));
  }

  /** NEXT with the loop's own level on top: another round from behind the head, or the end. */
  lemma NextTurn(l: Lang, p: seq<Token>, st: St, v: string, n: nat, t2: string, t3: string)
    requires st.idx + 1 < |p| && p[st.idx] == Sign(Next) && p[st.idx + 1] == Token(Value(Identifier), v)
    requires Follows(RawAt(p, st.idx + 2).kind) && n <= |p|
    requires ToVar(st.fn) in st.sc && st.sc[ToVar(st.fn)] == Text(t2)
    requires StepVar(st.fn) in st.sc && st.sc[StepVar(st.fn)] == Text(t3)
    requires ForVar(st.fn) in st.sc && st.sc[ForVar(st.fn)] == Index(n)
    ensures var c := Turn(l, p, st);
            if v !in st.env then Ends(c, Aborted, st.env)
            else
              var x := Wrap32(l.num(st.env[v]) + l.num(t3));
              c == Running(if x > l.num(t2) then st.(idx := st.idx + 2, fn := st.fn - 1)
                           else st.(idx := n, env := st.env[v := l.show(x)]))
  {
    hide Turn, CmdNext, Wrap32;
    NextCmd(l, p, st.(idx := st.idx + 1), v, n, t2, t3);
    NextKeyword(l, p, st);
  }

  lemma NextCmd(l: Lang, p: seq<Token>, st: St, v: string, n: nat, t2: string, t3: string)
    requires st.idx < |p| && p[st.idx] == Token(Value(Identifier), v) && n <= |p|
    requires ToVar(st.fn) in st.sc && st.sc[ToVar(st.fn)] == Text(t2)
    requires StepVar(st.fn) in st.sc && st.sc[StepVar(st.fn)] == Text(t3)
    requires ForVar(st.fn) in st.sc && st.sc[ForVar(st.fn)] == Index(n)
    ensures var out := CmdNext(l, p, st);
            if v !in st.env then out == CmdOut(st.(idx := st.idx + 1), Bad)
            else
              var x := Wrap32(l.num(st.env[v]) + l.num(t3));
              out == CmdOut(if x > l.num(t2) then st.(idx := st.idx + 1, fn := st.fn - 1)
                            else st.(idx := n, env := st.env[v := l.show(x)]), Fine)
  {
    hide Wrap32;
  }
}
