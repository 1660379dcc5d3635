/** What one round of `execute` does at the first token of each statement. */
module FlowTurns {
  import opened Tokens
  import opened Programs
  import opened Expression
  import opened ExpressionTree
  import opened ExpressionMeaning
  import opened Flow
  import opened Structured
  import opened FlowScans

  /** Tokens that may follow a statement. */
  predicate Follows(k: Kind) {
    !IsOperator(k) && k != NoError && k != Error && k != Step
  }

  lemma FirstFollows(p: seq<Token>, i: nat, b: Block)
    requires At(p, i, BlockToks(b)) && Follows(RawAt(p, i + |BlockToks(b)|).kind)
    ensures Follows(RawAt(p, i).kind)
  {
    match b
    case Nil =>
    case Cons(s, rest) =>
      AtSplit(p, i, StmtToks(s), BlockToks(rest));
      FirstOfStmt(s);
      assert p[i + 0] == StmtToks(s)[0];
  }

  lemma {:induction false} FirstOfStmt(s: Stmt)
    ensures StmtToks(s) != [] && Follows(StmtToks(s)[0].kind)
    decreases s
  {
    match s
    case Blank(_, _) =>
    case Perform(f, args, tail) =>
      assert TermToks(Call(f, args))[0] == Sign(Function(f));
    case Guarded(s1, _) => FirstOfStmt(s1);
    case _ =>
  }

  /** `expression()` on the tokens of an expression, in terms of its value. */
  ghost predicate Computes(o: Outcome, n: nat, c: Computed) {
    match c
    case TooLong(v) => o.status == Fatal && o.env == v
    case Failing(v) => o == Outcome(Err, n, "", v)
    case Got(t, v) => o == Outcome(Ok, n, t, v)
  }

  lemma ExprComputes(l: Lang, p: seq<Token>, st: St, e: Expr)
    requires At(p, st.idx, ExprToks(e)) && !IsOperator(RawAt(p, st.idx + |ExprToks(e)|).kind)
    ensures st.idx + |ExprToks(e)| <= |p|
    ensures Computes(Flow.Expr(l, p, st), st.idx + |ExprToks(e)|, Compute(l, e, st.env))
  {
    hide Evaluate, Eval;
    EvaluatesTree(l.ops, p, st.env, st.idx, e);
  }

  /** The end of a run, but for its cursor and variables of loops; an error no clause catches resets
      both nests. */
  ghost predicate Ends(c: Config, why: Why, env: Env) {
    c.Halted? && c.why == why && c.st.env == env && (why == Aborted ==> c.st.wn == 0 && c.st.fn == 0)
  }

  lemma BlankTurn(l: Lang, p: seq<Token>, st: St)
    requires st.idx < |p| && Silent(p[st.idx].kind)
    ensures Turn(l, p, st) == Running(st.(idx := st.idx + 1))
  {
  }

  // The round of a command whose keyword stands at the cursor, one lemma a keyword.

  lemma LetKeyword(l: Lang, p: seq<Token>, st: St)
    requires st.idx < |p| && p[st.idx] == Sign(Let)
    ensures Turn(l, p, st) == Settle(p, CmdLet(l, p, st.(idx := st.idx + 1)))
  {
    hide CmdLet, CmdIf, CmdWhile, CmdEndWhile, CmdFor, CmdNext, CmdContinue, CmdBreak, CmdElse, CmdPerform, Settle;
  }

  lemma IfKeyword(l: Lang, p: seq<Token>, st: St)
    requires st.idx < |p| && p[st.idx] == Sign(If)
    ensures Turn(l, p, st) == Settle(p, CmdIf(l, p, st.(idx := st.idx + 1)))
  {
    hide CmdLet, CmdIf, CmdWhile, CmdEndWhile, CmdFor, CmdNext, CmdContinue, CmdBreak, CmdElse, CmdPerform, Settle;
  }

  lemma WhileKeyword(l: Lang, p: seq<Token>, st: St)
    requires st.idx < |p| && p[st.idx] == Sign(While)
    ensures Turn(l, p, st) == Settle(p, CmdWhile(l, p, st.idx, st.(idx := st.idx + 1)))
  {
    hide CmdLet, CmdIf, CmdWhile, CmdEndWhile, CmdFor, CmdNext, CmdContinue, CmdBreak, CmdElse, CmdPerform, Settle;
  }

  lemma EndWhileKeyword(l: Lang, p: seq<Token>, st: St)
    requires st.idx < |p| && p[st.idx] == Sign(EndWhile)
    ensures Turn(l, p, st) == Settle(p, CmdEndWhile(p, st.(idx := st.idx + 1)))
  {
    hide CmdLet, CmdIf, CmdWhile, CmdEndWhile, CmdFor, CmdNext, CmdContinue, CmdBreak, CmdElse, CmdPerform, Settle;
  }

  lemma ForKeyword(l: Lang, p: seq<Token>, st: St)
    requires st.idx < |p| && p[st.idx] == Sign(For)
    ensures Turn(l, p, st) == Settle(p, CmdFor(l, p, st.(idx := st.idx + 1)))
  {
    hide CmdLet, CmdIf, CmdWhile, CmdEndWhile, CmdFor, CmdNext, CmdContinue, CmdBreak, CmdElse, CmdPerform, Settle;
  }

  lemma NextKeyword(l: Lang, p: seq<Token>, st: St)
    requires st.idx < |p| && p[st.idx] == Sign(Next)
    ensures Turn(l, p, st) == Settle(p, CmdNext(l, p, st.(idx := st.idx + 1)))
  {
    hide CmdLet, CmdIf, CmdWhile, CmdEndWhile, CmdFor, CmdNext, CmdContinue, CmdBreak, CmdElse, CmdPerform, Settle;
  }

  lemma ContinueKeyword(l: Lang, p: seq<Token>, st: St)
    requires st.idx < |p| && p[st.idx] == Sign(Continue)
    ensures Turn(l, p, st) == Settle(p, CmdContinue(p, st.(idx := st.idx + 1)))
  {
    hide CmdLet, CmdIf, CmdWhile, CmdEndWhile, CmdFor, CmdNext, CmdContinue, CmdBreak, CmdElse, CmdPerform, Settle;
  }

  lemma BreakLoopKeyword(l: Lang, p: seq<Token>, st: St)
    requires st.idx < |p| && p[st.idx] == Sign(BreakLoop)
    ensures Turn(l, p, st) == Settle(p, CmdBreak(p, st.(idx := st.idx + 1)))
  {
    hide CmdLet, CmdIf, CmdWhile, CmdEndWhile, CmdFor, CmdNext, CmdContinue, CmdBreak, CmdElse, CmdPerform, Settle;
  }

  lemma ElseKeyword(l: Lang, p: seq<Token>, st: St)
    requires st.idx < |p| && (p[st.idx].kind == Else || p[st.idx].kind == ElseIf)
    ensures Turn(l, p, st) == Settle(p, CmdElse(p, st.(idx := st.idx + 1)))
  {
    hide CmdLet, CmdIf, CmdWhile, CmdEndWhile, CmdFor, CmdNext, CmdContinue, CmdBreak, CmdElse, CmdPerform, Settle;
  }

  lemma CallKeyword(l: Lang, p: seq<Token>, st: St)
    requires st.idx < |p| && p[st.idx].kind.Function?
    ensures Turn(l, p, st) == Settle(p, CmdPerform(l, p, st.idx, st.(idx := st.idx + 1)))
  {
    hide CmdLet, CmdIf, CmdWhile, CmdEndWhile, CmdFor, CmdNext, CmdContinue, CmdBreak, CmdElse, CmdPerform, Settle;
  }

  lemma SetTurn(l: Lang, p: seq<Token>, st: St, t: Target, e: Expr)
    requires At(p, st.idx, StmtToks(SetVar(t, e)))
    requires var n := st.idx + |StmtToks(SetVar(t, e))|; !IsOperator(RawAt(p, n).kind)
    ensures var n := st.idx + |StmtToks(SetVar(t, e))|;
            match Compute(l, e, st.env)
            case TooLong(v) => Ends(Turn(l, p, st), Exited, v)
            case Failing(v) => n <= |p| && Turn(l, p, st) == OnError(p, st.(idx := n, env := v))
            case Got(text, v) =>
              n <= |p| && Turn(l, p, st) == Running(st.(idx := n, env := v[TargetName(l, t, st.env) := text]))
  {
    hide Turn, CmdLet, Compute, At, ExprToks, Settle, Follows, OnError;
    AtHead(p, st.idx, Sign(Let), [TargetToken(t)] + ([Sign(Assign)] + ExprToks(e)));
    AtHead(p, st.idx + 1, TargetToken(t), [Sign(Assign)] + ExprToks(e));
    AtHead(p, st.idx + 2, Sign(Assign), ExprToks(e));
    LetCmd(l, p, st.(idx := st.idx + 1), t, e);
    LetKeyword(l, p, st);
    SettleCases(p, CmdLet(l, p, st.(idx := st.idx + 1)));
  }

  lemma SettleCases(p: seq<Token>, r: CmdOut)
    requires r.st.idx <= |p|
    ensures r.ret == Fine ==> Settle(p, r) == Running(r.st)
    ensures r.ret == Exit ==> Ends(Settle(p, r), Exited, r.st.env)
    ensures r.ret == Bad ==> Settle(p, r) == OnError(p, r.st)
  {
    hide OnError;
  }

  /** What becomes of an error: in front of an ordinary token it ends the run, NO_ERROR is passed and
      the run goes on, ERROR = sends it to a label. */
  lemma ErrorCases(p: seq<Token>, st: St)
    requires st.idx <= |p|
    ensures Follows(RawAt(p, st.idx).kind) ==> Ends(OnError(p, st), Aborted, st.env)
    ensures st.idx < |p| && p[st.idx] == Sign(NoError) ==> OnError(p, st) == Running(st.(idx := st.idx + 1))
    ensures st.idx < |p| && p[st.idx] == Sign(Error) ==> Ends(OnError(p, st), ErrorClause, st.env)
  {
  }

  /** A value where a command should stand. */
  lemma StrayTurn(l: Lang, p: seq<Token>, st: St)
    requires st.idx < |p| && p[st.idx].kind.Value?
    ensures Turn(l, p, st) == OnError(p, st.(idx := st.idx + 1))
  {
    hide OnError;
  }

  /** A clause behind a statement that went well is passed over. */
  lemma ClauseTurn(l: Lang, p: seq<Token>, st: St, c: Clause)
    requires At(p, st.idx, ClauseToks(c))
    ensures st.idx + |ClauseToks(c)| <= |p| && Turn(l, p, st) == Running(st.(idx := st.idx + |ClauseToks(c)|))
  {
    hide Dispatch, Settle;
    assert forall k :: 0 <= k < |ClauseToks(c)| ==> p[st.idx + k] == ClauseToks(c)[k];
    assert p[st.idx + 0] == ClauseToks(c)[0];
  }

  lemma FollowsMeans(k: Kind)
    requires Follows(k)
    ensures !IsOperator(k) && k != NoError && k != Error && k != Step
  {
  }

  lemma LetRuns(l: Lang, p: seq<Token>, st: St, t: Target)
    requires st.idx + 1 < |p| && p[st.idx] == TargetToken(t) && p[st.idx + 1] == Sign(Assign)
    ensures var st1 := st.(idx := st.idx + 2);
            var o := Flow.Expr(l, p, st1);
            CmdLet(l, p, st) == if !o.status.Ok? then CmdOut(Moved(st1, o), RetOf(o.status))
                                else CmdOut(Moved(st1, o).(env := o.env[TargetName(l, t, st.env) := o.token]), Fine)
  {
    hide Flow.Expr;
  }

  lemma LetCmd(l: Lang, p: seq<Token>, st: St, t: Target, e: Expr)
    requires st.idx + 1 < |p| && p[st.idx] == TargetToken(t) && p[st.idx + 1] == Sign(Assign)
    requires At(p, st.idx + 2, ExprToks(e)) && !IsOperator(RawAt(p, st.idx + 2 + |ExprToks(e)|).kind)
    ensures var n := st.idx + 2 + |ExprToks(e)|;
            var out := CmdLet(l, p, st);
            match Compute(l, e, st.env)
            case TooLong(v) => out.ret == Exit && out.st.env == v
            case Failing(v) => n <= |p| && out == CmdOut(st.(idx := n, env := v), Bad)
            case Got(text, v) =>
              n <= |p| && out == CmdOut(st.(idx := n, env := v[TargetName(l, t, st.env) := text]), Fine)
  {
    hide Flow.Expr, Compute, At, ExprToks, Follows, TargetName;
    var st1 := st.(idx := st.idx + 2);
    ExprComputes(l, p, st1, e);
    LetRuns(l, p, st, t);
  }

  lemma PerformTurn(l: Lang, p: seq<Token>, st: St, f: nat, args: Arguments, tail: Tail)
    requires var e := CallExpr(f, args, tail);
             At(p, st.idx, ExprToks(e)) && !IsOperator(RawAt(p, st.idx + |ExprToks(e)|).kind)
    ensures var e := CallExpr(f, args, tail);
            var n := st.idx + |ExprToks(e)|;
            match Compute(l, e, st.env)
            case TooLong(v) => Ends(Turn(l, p, st), Exited, v)
            case Failing(v) => n <= |p| && Turn(l, p, st) == OnError(p, st.(idx := n, env := v))
            case Got(_, v) => n <= |p| && Turn(l, p, st) == Running(st.(idx := n, env := v))
  {
    hide Turn, OnError;
    hide Flow.Expr, Compute;
    var e := CallExpr(f, args, tail);
    assert ExprToks(e)[0] == Sign(Function(f)) by { assert TermToks(Call(f, args))[0] == Sign(Function(f)); }
    assert p[st.idx + 0] == Sign(Function(f));
    ExprComputes(l, p, st, e);
    CallKeyword(l, p, st);
    assert st.(idx := st.idx + 1).(idx := st.idx) == st;
  }

  // ---------------------------------------------------------------- IF

  /** Where an IF at `i` (behind its keyword) sends the cursor: into a branch whose own closing
      tokens are `rest`, behind END_IF, or nowhere. */
  datatype Picked =
    | Taken(b: Block, at: nat, rest: Alternative, env: Env)
    | Ended(at: nat, env: Env)
    | PickFails(env: Env)
    | PickQuits(env: Env)

  ghost function Pick(l: Lang, i: nat, c: Expr, b: Block, els: Alternative, env: Env): Picked
    decreases els
  {
    var n := i + |ExprToks(c)|;
    match Compute(l, c, env)
    case TooLong(v) => PickQuits(v)
    case Failing(v) => PickFails(v)
    case Got(t, v) =>
      if l.truth(t) then Taken(b, n, els, v)
      else
        var m := n + |BlockToks(b)| + 1;
        match els
        case NoElse => Ended(m, v)
        case Otherwise(b1) => Taken(b1, m, NoElse, v)
        case OtherIf(c1, b1, els1) =>
          var r := Pick(l, m, c1, b1, els1, v);
          if r.PickFails? then Taken(b1, m + |ExprToks(c1)|, els1, r.env) else r
  }

  function CondToks(c: Expr, b: Block, els: Alternative): seq<Token> {
    ExprToks(c) + (BlockToks(b) + ElseToks(els))
  }

  lemma FirstOfElse(p: seq<Token>, i: nat, els: Alternative)
    requires At(p, i, ElseToks(els))
    ensures i < |p| && Follows(p[i].kind)
    ensures p[i].kind == match els case NoElse => EndIf case Otherwise(_) => Else case OtherIf(_, _, _) => ElseIf
  {
    assert p[i + 0] == ElseToks(els)[0];
  }

  lemma ScanStops(p: seq<Token>, i: nat, s: Scanner)
    requires i < |p| && ScanToken(s, p[i]) == Stop
    ensures ScanFrom(p, i, s) == i
  {
  }

  lemma ScanGoes(p: seq<Token>, i: nat, s: Scanner, s1: Scanner)
    requires i < |p| && ScanToken(s, p[i]) == Go(s1)
    ensures ScanFrom(p, i, s) == ScanFrom(p, i + 1, s1)
  {
  }

  lemma PassBlock(p: seq<Token>, i: nat, s: Scanner, b: Block, rest: seq<Token>)
    requires At(p, i, BlockToks(b) + rest) && Calm(s, LoopNames(b))
    ensures At(p, i + |BlockToks(b)|, rest) && i + |BlockToks(b)| + |rest| <= |p|
    ensures ScanFrom(p, i, s) == ScanFrom(p, i + |BlockToks(b)|, s)
  {
    hide At, ScanAll, ScanFrom;
    AtSplit(p, i, BlockToks(b), rest);
    BlockNeutral(s, b);
    ScanOver(p, i, BlockToks(b), s, s);
  }

  lemma PassExpr(p: seq<Token>, i: nat, s: Scanner, e: Expr, rest: seq<Token>)
    requires At(p, i, ExprToks(e) + rest) && Calm(s, {})
    ensures At(p, i + |ExprToks(e)|, rest) && i + |ExprToks(e)| + |rest| <= |p|
    ensures ScanFrom(p, i, s) == ScanFrom(p, i + |ExprToks(e)|, s)
  {
    hide At, ScanAll, ScanFrom;
    AtSplit(p, i, ExprToks(e), rest);
    ExprNeutral(s, e);
    ScanOver(p, i, ExprToks(e), s, s);
  }

  lemma PassBoth(p: seq<Token>, i: nat, s: Scanner, e: Expr, b: Block, rest: seq<Token>)
    requires At(p, i, ExprToks(e) + (BlockToks(b) + rest)) && Calm(s, LoopNames(b))
    ensures var j := i + |ExprToks(e)| + |BlockToks(b)|;
            At(p, j, rest) && j + |rest| <= |p| && ScanFrom(p, i, s) == ScanFrom(p, j, s)
  {
    hide At, ScanFrom, ExprToks, BlockToks;
    PassExpr(p, i, s, e, BlockToks(b) + rest);
    PassBlock(p, i + |ExprToks(e)|, s, b, rest);
  }

  lemma ScanToElse(p: seq<Token>, i: nat, b: Block, els: Alternative)
    requires At(p, i, BlockToks(b) + ElseToks(els))
    ensures ScanFrom(p, i, IfScan(0)) == i + |BlockToks(b)| < |p|
  {
    hide At, ScanFrom, Follows, BlockToks, ElseToks;
    PassBlock(p, i, IfScan(0), b, ElseToks(els));
    FirstOfElse(p, i + |BlockToks(b)|, els);
    ScanStops(p, i + |BlockToks(b)|, IfScan(0));
  }

  /** What `cmd_if` does agrees with the picked branch. */
  ghost predicate Picks(out: CmdOut, st: St, r: Picked, n: nat) {
    match r
    case Taken(_, at, _, v) => out == CmdOut(st.(idx := at, env := v), Fine)
    case Ended(at, v) => out == CmdOut(st.(idx := at, env := v), Fine)
    case PickFails(v) => out == CmdOut(st.(idx := n, env := v), Bad)
    case PickQuits(v) => out.ret == Exit && out.st.env == v
  }

  lemma CmdIfRuns(l: Lang, p: seq<Token>, st: St)
    requires st.idx <= |p|
    ensures var o := Flow.Expr(l, p, st);
            var st1 := Moved(st, o);
            var j := ScanFrom(p, o.idx, IfScan(0));
            CmdIf(l, p, st)
              == if !o.status.Ok? then CmdOut(st1, RetOf(o.status))
                 else if l.truth(o.token) then CmdOut(st1, Fine)
                 else if j == |p| then CmdOut(st1.(idx := j), Bad)
                 else if p[j].kind == ElseIf then Dropped(CmdIf(l, p, st1.(idx := j + 1)))
                 else CmdOut(st1.(idx := j + 1), Fine)
  {
    hide Flow.Expr, ScanFrom;
  }

  /** The error of a condition behind ELSE_IF is dropped. */
  function Dropped(r: CmdOut): CmdOut {
    if r.ret == Bad then CmdOut(r.st, Fine) else r
  }

  lemma PicksDropped(out: CmdOut, st: St, i: nat, env: Env, r: Picked, b: Block, at: nat, rest: Alternative, n: nat)
    requires Picks(out, st.(idx := i, env := env), r, at)
    ensures Picks(Dropped(out), st, if r.PickFails? then Taken(b, at, rest, r.env) else r, n)
  {
  }

  lemma {:induction false} IfPicks(l: Lang, p: seq<Token>, st: St, c: Expr, b: Block, els: Alternative)
    requires At(p, st.idx, CondToks(c, b, els))
    ensures st.idx <= |p| && Picks(CmdIf(l, p, st), st, Pick(l, st.idx, c, b, els, st.env), st.idx + |ExprToks(c)|)
    decreases els
  {
    hide Flow.Expr, Compute, ScanFrom, At, ExprToks, BlockToks, ElseToks, Follows, CmdIf, CondToks;
    IfLayout(l, p, st, c, b, els);
    CmdIfRuns(l, p, st);
    var n := st.idx + |ExprToks(c)|;
    var r := Compute(l, c, st.env);
    if r.Got? && !l.truth(r.text) {
      ScanToElse(p, n, b, els);
      if els.OtherIf? {
        var m := n + |BlockToks(b)| + 1;
        var st1 := st.(idx := m, env := r.env);
        IfPicks(l, p, st1, els.c, els.b, els.els);
        PicksDropped(CmdIf(l, p, st1), st, m, r.env, Pick(l, m, els.c, els.b, els.els, r.env),
                     els.b, m + |ExprToks(els.c)|, els.els, n);
      }
    }
  }

  /** The tokens of an IF in their places. */
  lemma IfLayout(l: Lang, p: seq<Token>, st: St, c: Expr, b: Block, els: Alternative)
    requires At(p, st.idx, CondToks(c, b, els))
    ensures var n := st.idx + |ExprToks(c)|;
            var m := n + |BlockToks(b)|;
            && n <= m < |p|
            && Computes(Flow.Expr(l, p, st), n, Compute(l, c, st.env))
            && Follows(RawAt(p, n).kind)
            && At(p, n, BlockToks(b) + ElseToks(els)) && At(p, m, ElseToks(els))
            && p[m].kind == (match els case NoElse => EndIf case Otherwise(_) => Else case OtherIf(_, _, _) => ElseIf)
            && match els
               case NoElse => true
               case Otherwise(b1) => At(p, m + 1, BlockToks(b1) + ElseToks(NoElse))
               case OtherIf(c1, b1, els1) =>
                 At(p, m + 1, CondToks(c1, b1, els1)) && At(p, m + 1 + |ExprToks(c1)|, BlockToks(b1) + ElseToks(els1))
  {
    hide Flow.Expr, Compute, At, Follows, Computes, ExprToks, BlockToks;
    var n := st.idx + |ExprToks(c)|;
    var m := n + |BlockToks(b)|;
    AtSplit(p, st.idx, ExprToks(c), BlockToks(b) + ElseToks(els));
    AtSplit(p, n, BlockToks(b), ElseToks(els));
    FirstOfElse(p, m, els);
    FirstFollows(p, n, b);
    ExprComputes(l, p, st, c);
    ElseLayout(p, m, els);
  }

  lemma ElseLayout(p: seq<Token>, m: nat, els: Alternative)
    requires At(p, m, ElseToks(els))
    ensures match els
            case NoElse => true
            case Otherwise(b1) => At(p, m + 1, BlockToks(b1) + ElseToks(NoElse))
            case OtherIf(c1, b1, els1) =>
              At(p, m + 1, CondToks(c1, b1, els1)) && At(p, m + 1 + |ExprToks(c1)|, BlockToks(b1) + ElseToks(els1))
  {
    match els
    case NoElse =>
    case Otherwise(b1) =>
      AtHead(p, m, Sign(Else), BlockToks(b1) + [Sign(EndIf)]);
    case OtherIf(c1, b1, els1) =>
      AtHead(p, m, Sign(ElseIf), CondToks(c1, b1, els1));
      AtSplit(p, m + 1, ExprToks(c1), BlockToks(b1) + ElseToks(els1));
  }

  /** The branch taken is one of the script's, it stands where the cursor goes, and the tokens
      behind it lead to the end of the IF. */
  lemma {:induction false} PickStands(l: Lang, p: seq<Token>, i: nat, c: Expr, b: Block, els: Alternative, env: Env,
                                      ctx: Ctx)
    requires At(p, i, CondToks(c, b, els)) && Proper(b, ctx) && ProperElse(els, ctx)
    ensures var r := Pick(l, i, c, b, els, env);
            var end := i + |CondToks(c, b, els)|;
            && (r.Ended? ==> r.at == end)
            && (r.Taken? ==>
                  (At(p, r.at, BlockToks(r.b) + ElseToks(r.rest)) && Proper(r.b, ctx)
                   && r.at + |BlockToks(r.b)| + |ElseToks(r.rest)| == end
                   && |BlockToks(r.b)| < |CondToks(c, b, els)|))
    decreases els
  {
    hide Compute, At, Computes, Follows, ExprToks, BlockToks, Proper;
    IfLayout(l, p, St(i, env, 0, 0, map[]), c, b, els);
    var r := Compute(l, c, env);
    if r.Got? && !l.truth(r.text) {
      match els
      case NoElse =>
      case Otherwise(_) =>
      case OtherIf(c1, b1, els1) =>
        PickStands(l, p, i + |ExprToks(c)| + |BlockToks(b)| + 1, c1, b1, els1, r.env, ctx);
    }
  }

  /** The meaning of an IF is the meaning of the branch picked. */
  lemma {:induction false} PickMeans(l: Lang, k: nat, i: nat, c: Expr, b: Block, els: Alternative, env: Env)
    ensures ExecStmt(l, k, Cond(c, b, els), env)
         == match Pick(l, i, c, b, els, env)
            case Taken(b1, _, _, v) => Exec(l, k, b1, v)
            case Ended(_, v) => Done(v, Normal)
            case PickFails(v) => Abort(v)
            case PickQuits(v) => Quit(v)
    decreases els
  {
    hide Compute, Exec;
    var r := Compute(l, c, env);
    if r.Got? && !l.truth(r.text) {
      match els
      case NoElse =>
      case Otherwise(_) =>
      case OtherIf(c1, b1, els1) =>
        PickMeans(l, k, i + |ExprToks(c)| + |BlockToks(b)| + 1, c1, b1, els1, r.env);
    }
  }

  lemma IfTurn(l: Lang, p: seq<Token>, st: St, c: Expr, b: Block, els: Alternative)
    requires At(p, st.idx, [Sign(If)] + CondToks(c, b, els))
    ensures match Pick(l, st.idx + 1, c, b, els, st.env)
            case Taken(_, at, _, v) => at <= |p| && Turn(l, p, st) == Running(st.(idx := at, env := v))
            case Ended(at, v) => at <= |p| && Turn(l, p, st) == Running(st.(idx := at, env := v))
            case PickFails(v) => Ends(Turn(l, p, st), Aborted, v)
            case PickQuits(v) => Ends(Turn(l, p, st), Exited, v)
  {
    hide Turn;
    hide Flow.Expr, Compute, CmdIf, Pick, ExprToks, BlockToks, ElseToks;
    AtHead(p, st.idx, Sign(If), CondToks(c, b, els));
    var st1 := st.(idx := st.idx + 1);
    IfPicks(l, p, st1, c, b, els);
    IfKeyword(l, p, st);
    IfLayout(l, p, st1, c, b, els);
  }

  /** Behind a branch one round leads to the end of the IF. */
  lemma ElseTurn(l: Lang, p: seq<Token>, st: St, els: Alternative)
    requires At(p, st.idx, ElseToks(els))
    ensures var end := st.idx + |ElseToks(els)|;
            end <= |p| && Turn(l, p, st) == Running(st.(idx := end))
  {
    hide Turn;
    hide ScanFrom;
    FirstOfElse(p, st.idx, els);
    if els.NoElse? {
      BlankTurn(l, p, st);
    } else {
      var toks := ElseToks(els);
      assert toks == [toks[0]] + toks[1..];
      AtHead(p, st.idx, toks[0], toks[1..]);
      EndIfFound(p, st.idx, els);
      EndIfToken(p, st.idx);
      ElseKeyword(l, p, st);
    }
  }

  lemma EndIfOfElse(p: seq<Token>, i: nat, b: Block)
    requires At(p, i, ElseToks(Otherwise(b)))
    ensures i < |p| && ScanFrom(p, i, EndIfScan(0)) == i + |ElseToks(Otherwise(b))| - 1
  {
    hide ScanFrom, At, Follows, ScanToken, BlockToks;
    AtHead(p, i, Sign(Else), BlockToks(b) + [Sign(EndIf)]);
    EndIfToken(p, i);
    PassBlock(p, i + 1, EndIfScan(0), b, [Sign(EndIf)]);
    AtSplit(p, i + 1, BlockToks(b), [Sign(EndIf)]);
    AtHead(p, i + 1 + |BlockToks(b)|, Sign(EndIf), []);
    EndIfToken(p, i + 1 + |BlockToks(b)|);
  }

  /** The scan of `cmd_else` stops at the END_IF of its own IF. */
  lemma OtherIfParts(p: seq<Token>, i: nat, c: Expr, b: Block, els: Alternative)
    requires At(p, i, ElseToks(OtherIf(c, b, els)))
    ensures var m := i + 1 + |ExprToks(c)| + |BlockToks(b)|;
            && i < |p| && m <= |p| && At(p, m, ElseToks(els))
               && ScanFrom(p, i, EndIfScan(0)) == ScanFrom(p, m, EndIfScan(0))
            && i + |ElseToks(OtherIf(c, b, els))| == m + |ElseToks(els)|
  {
    hide ScanFrom, At, Follows, ScanToken, ExprToks, BlockToks;
    AtHead(p, i, Sign(ElseIf), CondToks(c, b, els));
    EndIfToken(p, i);
    PassBoth(p, i + 1, EndIfScan(0), c, b, ElseToks(els));
    assert |ElseToks(OtherIf(c, b, els))| == 1 + |ExprToks(c)| + |BlockToks(b)| + |ElseToks(els)|;
    AtSplit(p, i + 1, ExprToks(c), BlockToks(b) + ElseToks(els));
    AtSplit(p, i + 1 + |ExprToks(c)|, BlockToks(b), ElseToks(els));
    AtBound(p, i + 1 + |ExprToks(c)| + |BlockToks(b)|, ElseToks(els));
  }

  lemma {:induction false} EndIfFound(p: seq<Token>, i: nat, els: Alternative)
    requires At(p, i, ElseToks(els))
    ensures i < |p| && ScanFrom(p, i, EndIfScan(0)) == i + |ElseToks(els)| - 1
    decreases els
  {
    hide ScanFrom, At, Follows, ScanToken, ExprToks, BlockToks;
    FirstOfElse(p, i, els);
    match els
    case NoElse =>
      EndIfToken(p, i);
    case Otherwise(b) =>
      EndIfOfElse(p, i, b);
    case OtherIf(c, b, els1) =>
      OtherIfParts(p, i, c, b, els1);
      EndIfFound(p, i + 1 + |ExprToks(c)| + |BlockToks(b)|, els1);
  }

  lemma EndIfToken(p: seq<Token>, i: nat)
    requires i < |p| && (p[i].kind == EndIf || p[i].kind == Else || p[i].kind == ElseIf)
    ensures ScanFrom(p, i, EndIfScan(0)) == if p[i].kind == EndIf then i else ScanFrom(p, i + 1, EndIfScan(0))
  {
  }
}
