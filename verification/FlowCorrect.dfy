/** The flat machine runs every proper script as its structured meaning says. */
module FlowCorrect {
  import opened Tokens
  import opened Programs
  import opened ExpressionTree
  import opened Flow
  import opened Machine
  import opened Structured
  import opened FlowScans
  import opened FlowTurns
  import opened FlowLoops

  /** The numbered variables of the loops already open. */
  predicate Outer(x: ScVar, w: int, f: int) {
    match x
    case WhileVar(n) => n <= w
    case ForVar(n) => n <= f
    case ToVar(n) => n <= f
    case StepVar(n) => n <= f
  }

  ghost predicate Kept(sc: ScVars, sc1: ScVars, w: int, f: int) {
    forall x: ScVar :: Outer(x, w, f) ==> (x in sc <==> x in sc1) && (x in sc ==> sc[x] == sc1[x])
  }

  lemma KeptTrans(a: ScVars, b: ScVars, c: ScVars, w: int, f: int, w1: int, f1: int)
    requires Kept(a, b, w, f) && Kept(b, c, w1, f1) && w <= w1 && f <= f1
    ensures Kept(a, c, w, f)
  {
    forall x: ScVar | Outer(x, w, f)
      ensures (x in a <==> x in c) && (x in a ==> a[x] == c[x])
    {
      assert Outer(x, w1, f1);
    }
  }

  /** `n` rounds from `c` lead where `r` says: behind the block, to the closing token of the loop
      around it, behind that loop, or to the end of the run. Both nests are back at their values
      on entry, but for the one WHILE a BREAK_LOOP has left; a FOR it has left keeps its level. */
  ghost predicate Lands(l: Lang, p: seq<Token>, c: Config, n: nat, r: Result, k: nat, end: nat, close: nat,
                        w: int, f: int, sc: ScVars, sc1: ScVars)
    requires c.st.idx <= |p|
  {
    var d := Run(l, p, n, c);
    match r
    case Done(v, Normal) => d == Running(St(end, v, w, f, sc1)) && Kept(sc, sc1, w, f)
    case Done(v, Continued) => d == Running(St(close, v, w, f, sc1)) && Kept(sc, sc1, w, f)
    case Done(v, Broken) => d == Running(Left(p, close, v, w, f, sc1)) && Kept(sc, sc1, w, f)
    case Abort(v) => Ends(d, Aborted, v)
    case Caught(v) => Ends(d, ErrorClause, v)
    case Quit(v) => Ends(d, Exited, v)
    case Timeout => n >= k && d.Running?
  }

  /** Where BREAK_LOOP leads out of the loop that ends at `close`. */
  function Left(p: seq<Token>, close: nat, env: Env, w: int, f: int, sc: ScVars): St {
    if close < |p| && p[close].kind == Next then St(close + 2, env, w, f, sc) else St(close + 1, env, w - 1, f, sc)
  }

  /** First `n1` rounds to a running state, then what happens from there. */
  lemma Chain(l: Lang, p: seq<Token>, c: Config, n1: nat, st1: St, n2: nat, r: Result, k1: nat, k: nat,
              end: nat, close: nat, w: int, f: int, sc: ScVars, sc2: ScVars)
    requires c.st.idx <= |p| && Run(l, p, n1, c) == Running(st1) && st1.idx <= |p|
    requires Kept(sc, st1.sc, w, f)
    requires Lands(l, p, Running(st1), n2, r, k1, end, close, w, f, st1.sc, sc2) && n1 + k1 >= k
    ensures Lands(l, p, c, n1 + n2, r, k, end, close, w, f, sc, sc2)
  {
    hide Run, Kept;
    RunAdd(l, p, n1, n2, c);
    if r.Done? {
      KeptTrans(sc, st1.sc, sc2, w, f, w, f);
    }
  }

  lemma OneRound(l: Lang, p: seq<Token>, st: St)
    requires st.idx <= |p|
    ensures Run(l, p, 0, Running(st)) == Running(st)
    ensures Run(l, p, 1, Running(st)) == Turn(l, p, st)
  {
    hide Turn;
    assert Run(l, p, 1, Running(st)) == Run(l, p, 0, Turn(l, p, st));
  }

  /** Where CONTINUE and BREAK_LOOP behind index `j` find the end of their loop. */
  ghost predicate Encloses(p: seq<Token>, j: nat, ctx: Ctx, close: nat) {
    j <= |p| &&
    (ctx != Outside ==>
      close < |p| && ScanFrom(p, j, LoopScan(0, 0)) == close && !EndsScript(p[close].kind)
      && (ctx == InWhile ==> p[close].kind == EndWhile)
      && (ctx.InFor? ==> p[close].kind == Next && close + 1 < |p|))
  }

  lemma {:induction false} BlockLands(l: Lang, p: seq<Token>, k: nat, b: Block, st: St, ctx: Ctx, close: nat)
    returns (n: nat, sc1: ScVars)
    requires At(p, st.idx, BlockToks(b)) && Proper(b, ctx) && st.wn >= 0
    requires var end := st.idx + |BlockToks(b)|; Follows(RawAt(p, end).kind) && Encloses(p, end, ctx, close)
    ensures st.idx <= |p|
    ensures Lands(l, p, Running(st), n, Exec(l, k, b, st.env), k, st.idx + |BlockToks(b)|, close,
                  st.wn, st.fn, st.sc, sc1)
    decreases k, |BlockToks(b)|, 3
  {
    hide At, Run, Turn, Lands, Follows, ExecStmt, StmtToks, ProperStmt, Encloses, Kept;
    AtBound(p, st.idx, BlockToks(b));
    match b {
      case Nil =>
        n, sc1 := 0, st.sc;
        StaysPut(l, p, st, k, close);
      case Cons(s, rest) =>
        var mid := st.idx + |StmtToks(s)|;
        FirstOfStmt(s);
        AtSplit(p, st.idx, StmtToks(s), BlockToks(rest));
        FirstFollows(p, mid, rest);
        EnclosesBefore(p, mid, rest, ctx, close);
        n, sc1 := StmtLands(l, p, k, s, st, ctx, close);
        var r := ExecStmt(l, k, s, st.env);
        if r.Done? && r.sig == Normal {
          Arrives(l, p, st, n, r, k, mid, close, sc1);
          var st1 := St(mid, r.env, st.wn, st.fn, sc1);
          var n2;
          n2, sc1 := BlockLands(l, p, k, rest, st1, ctx, close);
          Chain(l, p, Running(st), n, st1, n2, Exec(l, k, rest, r.env), k, k,
                mid + |BlockToks(rest)|, close, st.wn, st.fn, st.sc, sc1);
          n := n + n2;
        } else {
          EndIrrelevant(l, p, st, n, r, k, mid, mid + |BlockToks(rest)|, close, sc1);
        }
    }
  }

  lemma StaysPut(l: Lang, p: seq<Token>, st: St, k: nat, close: nat)
    requires st.idx <= |p|
    ensures Lands(l, p, Running(st), 0, Done(st.env, Normal), k, st.idx, close, st.wn, st.fn, st.sc, st.sc)
  {
    OneRound(l, p, st);
  }

  lemma Arrives(l: Lang, p: seq<Token>, st: St, n: nat, r: Result, k: nat, end: nat, close: nat, sc1: ScVars)
    requires st.idx <= |p| && r.Done? && r.sig == Normal
    requires Lands(l, p, Running(st), n, r, k, end, close, st.wn, st.fn, st.sc, sc1)
    ensures end <= |p| && Run(l, p, n, Running(st)) == Running(St(end, r.env, st.wn, st.fn, sc1))
    ensures Kept(st.sc, sc1, st.wn, st.fn)
  {
    hide Run;
  }

  lemma EndIrrelevant(l: Lang, p: seq<Token>, st: St, n: nat, r: Result, k: nat, end: nat, end1: nat, close: nat,
                      sc1: ScVars)
    requires st.idx <= |p| && !(r.Done? && r.sig == Normal)
    requires Lands(l, p, Running(st), n, r, k, end, close, st.wn, st.fn, st.sc, sc1)
    ensures Lands(l, p, Running(st), n, r, k, end1, close, st.wn, st.fn, st.sc, sc1)
  {
    hide Run, Kept;
  }

  lemma EnclosesBefore(p: seq<Token>, j: nat, b: Block, ctx: Ctx, close: nat)
    requires At(p, j, BlockToks(b)) && Encloses(p, j + |BlockToks(b)|, ctx, close)
    ensures Encloses(p, j, ctx, close)
  {
    hide At, ScanFrom, BlockToks;
    assert BlockToks(b) + [] == BlockToks(b);
    PassBlock(p, j, LoopScan(0, 0), b, []);
  }

  lemma {:induction false} StmtLands(l: Lang, p: seq<Token>, k: nat, s: Stmt, st: St, ctx: Ctx, close: nat)
    returns (n: nat, sc1: ScVars)
    requires At(p, st.idx, StmtToks(s)) && ProperStmt(s, ctx) && st.wn >= 0
    requires var end := st.idx + |StmtToks(s)|; Follows(RawAt(p, end).kind) && Encloses(p, end, ctx, close)
    ensures st.idx <= |p|
    ensures Lands(l, p, Running(st), n, ExecStmt(l, k, s, st.env), k, st.idx + |StmtToks(s)|, close,
                  st.wn, st.fn, st.sc, sc1)
    decreases k, |StmtToks(s)|, 2
  {
    hide At, Run, Turn, Lands, Follows, Encloses, Kept, Compute, StmtToks;
    AtBound(p, st.idx, StmtToks(s));
    match s {
      case Cond(c, b, els) =>
        n, sc1 := CondLands(l, p, k, c, b, els, st, ctx, close);
      case Loop(c, b) =>
        n, sc1 := LoopLands(l, p, k, c, b, st, close);
      case Count(v, e1, e2, e3, b) =>
        n, sc1 := CountLands(l, p, k, v, e1, e2, e3, b, st, close);
      case Guarded(s1, clause) =>
        sc1 := st.sc;
        n := GuardedLands(l, p, k, s1, clause, st, close);
      case _ =>
        n, sc1 := 1, st.sc;
        SimpleLands(l, p, k, s, st, ctx, close);
    }
  }

  /** Statements of one round. */
  lemma SimpleLands(l: Lang, p: seq<Token>, k: nat, s: Stmt, st: St, ctx: Ctx, close: nat)
    requires !s.Cond? && !s.Loop? && !s.Count? && !s.Guarded?
    requires At(p, st.idx, StmtToks(s)) && ProperStmt(s, ctx) && st.idx <= |p|
    requires var end := st.idx + |StmtToks(s)|; Follows(RawAt(p, end).kind) && Encloses(p, end, ctx, close)
    ensures Lands(l, p, Running(st), 1, ExecStmt(l, k, s, st.env), k, st.idx + |StmtToks(s)|, close,
                  st.wn, st.fn, st.sc, st.sc)
  {
    hide At, Run, Turn, Follows, Compute, Lands, Encloses, ExprToks, OnError;
    match s
    case Blank(kk, text) =>
      assert [Token(kk.AsKind(), text)] + [] == StmtToks(s);
      AtHead(p, st.idx, Token(kk.AsKind(), text), []);
      BlankTurn(l, p, st);
      TurnLands(l, p, k, st, Done(st.env, Normal), st.idx + 1, close);
    case SetVar(_, _) => CommandLands(l, p, k, s, st, close);
    case Perform(_, _, _) => CommandLands(l, p, k, s, st, close);
    case Stray(_, _) => CommandLands(l, p, k, s, st, close);
    case Again =>
      assert [Sign(Continue)] + [] == StmtToks(s);
      AtHead(p, st.idx, Sign(Continue), []);
      AgainLands(l, p, k, st, ctx, close);
    case Leave =>
      assert [Sign(BreakLoop)] + [] == StmtToks(s);
      AtHead(p, st.idx, Sign(BreakLoop), []);
      LeaveLands(l, p, k, st, ctx, close);
  }

  /** The round of a statement without parts, whatever clause stands behind it. */
  lemma CommandTurn(l: Lang, p: seq<Token>, k: nat, s: Stmt, st: St)
    requires Guardable(s) && At(p, st.idx, StmtToks(s)) && !IsOperator(RawAt(p, st.idx + |StmtToks(s)|).kind)
    ensures var n := st.idx + |StmtToks(s)|;
            && n <= |p|
            && match ExecStmt(l, k, s, st.env)
               case Done(v, sig) => sig == Normal && Turn(l, p, st) == Running(st.(idx := n, env := v))
               case Abort(v) => Turn(l, p, st) == OnError(p, st.(idx := n, env := v))
               case Quit(v) => Ends(Turn(l, p, st), Exited, v)
               case _ => false
  {
    hide At, Turn, Compute, ExprToks, OnError;
    AtBound(p, st.idx, StmtToks(s));
    match s
    case SetVar(t, e) => SetTurn(l, p, st, t, e);
    case Perform(f, args, tail) => PerformTurn(l, p, st, f, args, tail);
    case Stray(v, text) =>
      assert [Token(Value(v), text)] + [] == StmtToks(s);
      AtHead(p, st.idx, Token(Value(v), text), []);
      StrayTurn(l, p, st);
  }

  lemma CommandLands(l: Lang, p: seq<Token>, k: nat, s: Stmt, st: St, close: nat)
    requires Guardable(s) && At(p, st.idx, StmtToks(s)) && Follows(RawAt(p, st.idx + |StmtToks(s)|).kind)
             && st.idx <= |p|
    ensures Lands(l, p, Running(st), 1, ExecStmt(l, k, s, st.env), k, st.idx + |StmtToks(s)|, close,
                  st.wn, st.fn, st.sc, st.sc)
  {
    hide At, Run, Turn, Follows, ExecStmt, StmtToks, Lands, OnError;
    var n, r := st.idx + |StmtToks(s)|, ExecStmt(l, k, s, st.env);
    FollowsMeans(RawAt(p, n).kind);
    CommandTurn(l, p, k, s, st);
    if r.Abort? { ErrorCases(p, st.(idx := n, env := r.env)); }
    TurnLands(l, p, k, st, r, n, close);
  }

  /** A statement and its clause: one round where the clause takes the error, else one more to pass it. */
  lemma GuardedLands(l: Lang, p: seq<Token>, k: nat, s: Stmt, clause: Clause, st: St, close: nat) returns (n: nat)
    requires var g := Guarded(s, clause);
             && Guardable(s) && At(p, st.idx, StmtToks(g)) && st.idx <= |p|
             && Follows(RawAt(p, st.idx + |StmtToks(g)|).kind)
    ensures var g := Guarded(s, clause);
            Lands(l, p, Running(st), n, ExecStmt(l, k, g, st.env), k, st.idx + |StmtToks(g)|, close,
                  st.wn, st.fn, st.sc, st.sc)
  {
    hide At, Run, Turn, Follows, ExecStmt, StmtToks, Lands, OnError, Kept;
    var i, r, g := st.idx + |StmtToks(s)|, ExecStmt(l, k, s, st.env), Guarded(s, clause);
    GuardedParts(l, p, k, s, clause, st);
    CommandTurn(l, p, k, s, st);
    n := 1;
    var end := i + |ClauseToks(clause)|;
    if r.Done? {
      var st1 := st.(idx := i, env := r.env);
      ClauseTurn(l, p, st1, clause);
      OneRound(l, p, st);
      TurnLands(l, p, k, st1, r, end, close);
      KeptSelf(st.sc, st.wn, st.fn);
      Chain(l, p, Running(st), 1, st1, 1, r, k, k, end, close, st.wn, st.fn, st.sc, st.sc);
      n := 2;
    } else {
      if r.Abort? { ErrorCases(p, st.(idx := i, env := r.env)); }
      TurnLands(l, p, k, st, Handled(r, clause), end, close);
    }
  }

  lemma GuardedParts(l: Lang, p: seq<Token>, k: nat, s: Stmt, clause: Clause, st: St)
    requires Guardable(s) && At(p, st.idx, StmtToks(Guarded(s, clause)))
    ensures var i, g := st.idx + |StmtToks(s)|, Guarded(s, clause);
            && At(p, st.idx, StmtToks(s)) && At(p, i, ClauseToks(clause))
            && |StmtToks(g)| == |StmtToks(s)| + |ClauseToks(clause)|
            && i + |ClauseToks(clause)| <= |p| && p[i] == Sign(if clause.Ignored? then NoError else Error)
            && !IsOperator(RawAt(p, i).kind)
            && ExecStmt(l, k, g, st.env) == Handled(ExecStmt(l, k, s, st.env), clause)
  {
    hide At;
    AtSplit(p, st.idx, StmtToks(s), ClauseToks(clause));
    var c := ClauseToks(clause);
    assert c == [c[0]] + c[1..];
    AtHead(p, st.idx + |StmtToks(s)|, c[0], c[1..]);
  }

  /** A round that goes on behind its statement, or ends the run. */
  lemma TurnLands(l: Lang, p: seq<Token>, k: nat, st: St, r: Result, end: nat, close: nat)
    requires st.idx <= |p|
    requires match r
             case Done(v, s) => s == Normal && end <= |p| && Turn(l, p, st) == Running(st.(idx := end, env := v))
             case Abort(v) => Ends(Turn(l, p, st), Aborted, v)
             case Caught(v) => Ends(Turn(l, p, st), ErrorClause, v)
             case Quit(v) => Ends(Turn(l, p, st), Exited, v)
             case Timeout => false
    ensures Lands(l, p, Running(st), 1, r, k, end, close, st.wn, st.fn, st.sc, st.sc)
  {
    hide Run, Turn, Kept;
    OneRound(l, p, st);
    KeptSelf(st.sc, st.wn, st.fn);
  }

  lemma AgainLands(l: Lang, p: seq<Token>, k: nat, st: St, ctx: Ctx, close: nat)
    requires st.idx < |p| && p[st.idx] == Sign(Continue) && ctx != Outside && Encloses(p, st.idx + 1, ctx, close)
    ensures Lands(l, p, Running(st), 1, Done(st.env, Continued), k, st.idx + 1, close, st.wn, st.fn, st.sc, st.sc)
  {
    hide Run, Turn, Kept, ScanFrom;
    OneRound(l, p, st);
    KeptSelf(st.sc, st.wn, st.fn);
    ContinueTurn(l, p, st, close);
  }

  lemma LeaveLands(l: Lang, p: seq<Token>, k: nat, st: St, ctx: Ctx, close: nat)
    requires st.idx < |p| && p[st.idx] == Sign(BreakLoop) && MayBreak(ctx) && Encloses(p, st.idx + 1, ctx, close)
    ensures Lands(l, p, Running(st), 1, Done(st.env, Broken), k, st.idx + 1, close, st.wn, st.fn, st.sc, st.sc)
  {
    hide Run, Turn, Kept, ScanFrom;
    OneRound(l, p, st);
    KeptSelf(st.sc, st.wn, st.fn);
    if ctx == InWhile {
      BreakTurn(l, p, st, close);
    } else {
      BreakForTurn(l, p, st, close);
    }
  }

  lemma {:induction false} CondLands(l: Lang, p: seq<Token>, k: nat, c: Expr, b: Block, els: Alternative, st: St,
                                     ctx: Ctx, close: nat)
    returns (n: nat, sc1: ScVars)
    requires var s := Cond(c, b, els);
             var end := st.idx + |StmtToks(s)|;
             At(p, st.idx, StmtToks(s)) && ProperStmt(s, ctx) && st.wn >= 0 && st.idx <= |p|
             && Follows(RawAt(p, end).kind) && Encloses(p, end, ctx, close)
    ensures var s := Cond(c, b, els);
            Lands(l, p, Running(st), n, ExecStmt(l, k, s, st.env), k, st.idx + |StmtToks(s)|, close,
                  st.wn, st.fn, st.sc, sc1)
    decreases k, |StmtToks(Cond(c, b, els))|, 1
  {
    hide At, Run, Turn, Lands, Follows, Encloses, Kept, Compute, Pick, ExecStmt, Exec, ProperStmt;
    n, sc1 := 1, st.sc;
    var end := st.idx + |StmtToks(Cond(c, b, els))|;
    CondParts(p, st.idx, c, b, els, ctx);
    IfTurn(l, p, st, c, b, els);
    OneRound(l, p, st);
    PickStands(l, p, st.idx + 1, c, b, els, st.env, ctx);
    PickMeans(l, k, st.idx + 1, c, b, els, st.env);
    var r := Pick(l, st.idx + 1, c, b, els, st.env);
    if r.Taken? {
      n, sc1 := BranchLands(l, p, k, r.b, r.rest, st.(idx := r.at, env := r.env), ctx, close);
      KeptSelf(st.sc, st.wn, st.fn);
      Chain(l, p, Running(st), 1, st.(idx := r.at, env := r.env), n, Exec(l, k, r.b, r.env), k, k, end, close,
            st.wn, st.fn, st.sc, sc1);
      n := n + 1;
    } else {
      PickLands(l, p, k, r, st, end, close);
    }
  }

  lemma CondParts(p: seq<Token>, i: nat, c: Expr, b: Block, els: Alternative, ctx: Ctx)
    requires At(p, i, StmtToks(Cond(c, b, els))) && ProperStmt(Cond(c, b, els), ctx)
    ensures At(p, i, [Sign(If)] + CondToks(c, b, els)) && At(p, i + 1, CondToks(c, b, els))
    ensures Proper(b, ctx) && ProperElse(els, ctx)
    ensures |StmtToks(Cond(c, b, els))| == 1 + |CondToks(c, b, els)|
  {
    hide At;
    AtHead(p, i, Sign(If), CondToks(c, b, els));
  }

  lemma KeptSelf(sc: ScVars, w: int, f: int)
    ensures Kept(sc, sc, w, f)
  {
  }

  /** An IF that ends in its own round. */
  lemma PickLands(l: Lang, p: seq<Token>, k: nat, r: Picked, st: St, end: nat, close: nat)
    requires st.idx <= |p| && !r.Taken?
    requires Run(l, p, 1, Running(st)) == Turn(l, p, st)
    requires r.Ended? ==> r.at == end
    requires match r
             case Taken(_, _, _, _) => true
             case Ended(at, v) => at <= |p| && Turn(l, p, st) == Running(st.(idx := at, env := v))
             case PickFails(v) => Ends(Turn(l, p, st), Aborted, v)
             case PickQuits(v) => Ends(Turn(l, p, st), Exited, v)
    ensures var x := match r
                     case Taken(b1, _, _, v) => Timeout
                     case Ended(_, v) => Done(v, Normal)
                     case PickFails(v) => Abort(v)
                     case PickQuits(v) => Quit(v);
            Lands(l, p, Running(st), 1, x, k, end, close, st.wn, st.fn, st.sc, st.sc)
  {
    hide Run, Turn;
  }

  /** A branch and the way from behind it to the end of its IF. */
  lemma {:induction false} BranchLands(l: Lang, p: seq<Token>, k: nat, b: Block, rest: Alternative, st: St, ctx: Ctx,
                                       close: nat)
    returns (n: nat, sc1: ScVars)
    requires At(p, st.idx, BlockToks(b) + ElseToks(rest)) && Proper(b, ctx) && st.wn >= 0 && st.idx <= |p|
    requires Encloses(p, st.idx + |BlockToks(b)| + |ElseToks(rest)|, ctx, close)
    ensures Lands(l, p, Running(st), n, Exec(l, k, b, st.env), k, st.idx + |BlockToks(b)| + |ElseToks(rest)|, close,
                  st.wn, st.fn, st.sc, sc1)
    decreases k, |BlockToks(b)|, 4
  {
    hide At, Run, Turn, Lands, Encloses, Kept, Exec, Follows;
    var mid := st.idx + |BlockToks(b)|;
    var end := mid + |ElseToks(rest)|;
    AtSplit(p, st.idx, BlockToks(b), ElseToks(rest));
    FirstOfElse(p, mid, rest);
    EnclosesElse(p, mid, rest, ctx, close);
    n, sc1 := BlockLands(l, p, k, b, st, ctx, close);
    var r := Exec(l, k, b, st.env);
    if r.Done? && r.sig == Normal {
      Arrives(l, p, st, n, r, k, mid, close, sc1);
      var st1 := St(mid, r.env, st.wn, st.fn, sc1);
      ElseTurn(l, p, st1, rest);
      OneRound(l, p, st1);
      RunAdd(l, p, n, 1, Running(st));
      n := n + 1;
      Reached(l, p, st, n, r, k, end, close, sc1);
    } else {
      EndIrrelevant(l, p, st, n, r, k, mid, end, close, sc1);
    }
  }

  lemma Reached(l: Lang, p: seq<Token>, st: St, n: nat, r: Result, k: nat, end: nat, close: nat, sc1: ScVars)
    requires st.idx <= |p| && r.Done? && r.sig == Normal
    requires Run(l, p, n, Running(st)) == Running(St(end, r.env, st.wn, st.fn, sc1)) && Kept(st.sc, sc1, st.wn, st.fn)
    ensures Lands(l, p, Running(st), n, r, k, end, close, st.wn, st.fn, st.sc, sc1)
  {
    hide Run, Kept;
  }

  lemma EnclosesElse(p: seq<Token>, j: nat, e: Alternative, ctx: Ctx, close: nat)
    requires At(p, j, ElseToks(e)) && Encloses(p, j + |ElseToks(e)|, ctx, close)
    ensures Encloses(p, j, ctx, close)
  {
    hide At, ScanFrom, ElseToks, ScanAll;
    ElseNeutral(LoopScan(0, 0), e);
    ScanOver(p, j, ElseToks(e), LoopScan(0, 0), LoopScan(0, 0));
  }

  lemma {:induction false} LoopLands(l: Lang, p: seq<Token>, k: nat, c: Expr, b: Block, st: St, close: nat)
    returns (n: nat, sc1: ScVars)
    requires var s := Loop(c, b);
             At(p, st.idx, StmtToks(s)) && Proper(b, InWhile) && st.wn >= 0 && st.idx <= |p|
             && Follows(RawAt(p, st.idx + |StmtToks(s)|).kind)
    ensures Lands(l, p, Running(st), n, ExecLoop(l, k, c, b, st.env), k, st.idx + |StmtToks(Loop(c, b))|, close,
                  st.wn, st.fn, st.sc, sc1)
    decreases k, |StmtToks(Loop(c, b))|, 1
  {
    hide At, Run, Turn, Lands, Follows, Encloses, Kept, Compute, Exec, StmtToks, ExprToks, BlockToks, ScanFrom;
    n, sc1 := 0, st.sc;
    var end := st.idx + |StmtToks(Loop(c, b))|;
    LoopIs(c, b);
    OneRound(l, p, st);
    if k == 0 {
      TimesOut(l, p, st, end, close);
    } else {
      WhileTurn(l, p, st, c, b);
      LoopLayout(l, p, st, c, b);
      var r := Compute(l, c, st.env);
      var i := st.idx + 1 + |ExprToks(c)|;
      var m := i + |BlockToks(b)|;
      sc1 := st.sc[WhileVar(st.wn + 1) := Index(st.idx)];
      KeptDeeper(st.sc, Index(st.idx), st.wn, st.fn);
      n := 1;
      if r.Got? && l.truth(r.text) {
        n, sc1 := LoopRound(l, p, k, c, b, st, St(i, r.env, st.wn + 1, st.fn, sc1), m, close);
      } else {
        LoopStops(l, p, k, c, b, st, end, close, sc1);
      }
    }
  }

  ghost function AfterRound(l: Lang, k: nat, c: Expr, b: Block, x: Result): Result {
    if !x.Done? then x else if x.sig == Broken then Done(x.env, Normal) else ExecLoop(l, k, c, b, x.env)
  }

  /** A round of a loop whose condition holds, and what follows it. */
  lemma {:induction false} LoopRound(l: Lang, p: seq<Token>, k: nat, c: Expr, b: Block, st: St, st1: St, m: nat,
                                     close: nat)
    returns (n: nat, sc1: ScVars)
    requires At(p, st.idx, StmtToks(Loop(c, b))) && Proper(b, InWhile) && st.wn >= 0 && st.idx <= |p| && k > 0
    requires st1 == St(st1.idx, st1.env, st.wn + 1, st.fn, st.sc[WhileVar(st.wn + 1) := Index(st.idx)])
    requires st1.idx <= |p| && Turn(l, p, st) == Running(st1)
    requires At(p, st1.idx, BlockToks(b)) && m == st1.idx + |BlockToks(b)|
    requires m + 1 == st.idx + |StmtToks(Loop(c, b))| && Follows(RawAt(p, m + 1).kind)
    requires m < |p| && p[m] == Sign(EndWhile) && |BlockToks(b)| < |StmtToks(Loop(c, b))|
    ensures Lands(l, p, Running(st), n, AfterRound(l, k - 1, c, b, Exec(l, k - 1, b, st1.env)), k,
                  m + 1, close, st.wn, st.fn, st.sc, sc1)
    decreases k, |StmtToks(Loop(c, b))|, 0
  {
    hide At, Run, Turn, Lands, Follows, Encloses, Kept, Compute, Exec, ExecLoop, StmtToks, ExprToks, BlockToks,
      ScanFrom;
    var v, end := st1.env, m + 1;
    KeptDeeper(st.sc, Index(st.idx), st.wn, st.fn);
    EnclosesEnd(p, m);
    n, sc1 := BlockLands(l, p, k - 1, b, st1, InWhile, m);
    var x := Exec(l, k - 1, b, v);
    if x.Done? && x.sig != Broken {
      LoopBack(l, p, st, st1, n, x, k - 1, m, sc1);
      var n3, sc3 := LoopLands(l, p, k - 1, c, b, St(st.idx, x.env, st.wn, st.fn, sc1), close);
      Again(l, p, st, 1 + n + 1, x.env, sc1, n3, ExecLoop(l, k - 1, c, b, x.env), k, end, close, sc3);
      n, sc1 := 1 + n + 1 + n3, sc3;
    } else {
      LeavesLoop(l, p, st, st1, n, x, k, m, end, close, sc1);
      n := 1 + n;
    }
  }

  /** From the closing token back to WHILE. */
  lemma LoopBack(l: Lang, p: seq<Token>, st: St, st1: St, n: nat, x: Result, k: nat, m: nat, sc1: ScVars)
    requires st.idx <= |p| && st1.idx <= |p| && m < |p| && p[m] == Sign(EndWhile) && st.wn >= 0
    requires st1.wn == st.wn + 1 && st1.fn == st.fn && st1.sc == st.sc[WhileVar(st.wn + 1) := Index(st.idx)]
    requires Turn(l, p, st) == Running(st1) && x.Done? && x.sig != Broken
    requires Lands(l, p, Running(st1), n, x, k, m, m, st1.wn, st1.fn, st1.sc, sc1)
    ensures Run(l, p, 1 + n + 1, Running(st)) == Running(St(st.idx, x.env, st.wn, st.fn, sc1))
    ensures Kept(st.sc, sc1, st.wn, st.fn)
  {
    hide Run, Turn, Lands, Kept;
    KeptDeeper(st.sc, Index(st.idx), st.wn, st.fn);
    AtClose(l, p, st1, n, x, k, m, sc1);
    KeptAt(st1.sc, sc1, st.wn + 1, st.fn, WhileVar(st.wn + 1));
    var st2 := St(m, x.env, st.wn + 1, st.fn, sc1);
    EndWhileTurn(l, p, st2, st.idx);
    ThreeLegs(l, p, st, st1, n, st2, St(st.idx, x.env, st.wn, st.fn, sc1));
    KeptTrans(st.sc, st1.sc, sc1, st.wn, st.fn, st.wn + 1, st.fn);
  }

  /** A further pass over the loop from its first token. */
  lemma Again(l: Lang, p: seq<Token>, st: St, n1: nat, v: Env, sc1: ScVars, n2: nat, r: Result, k: nat,
              end: nat, close: nat, sc2: ScVars)
    requires st.idx <= |p| && k > 0 && n1 > 0
    requires var st1 := St(st.idx, v, st.wn, st.fn, sc1);
             Run(l, p, n1, Running(st)) == Running(st1) && Kept(st.sc, sc1, st.wn, st.fn)
             && Lands(l, p, Running(st1), n2, r, k - 1, end, close, st.wn, st.fn, sc1, sc2)
    ensures Lands(l, p, Running(st), n1 + n2, r, k, end, close, st.wn, st.fn, st.sc, sc2)
  {
    hide Run, Lands, Kept;
    Chain(l, p, Running(st), n1, St(st.idx, v, st.wn, st.fn, sc1), n2, r, k - 1, k, end, close,
          st.wn, st.fn, st.sc, sc2);
  }

  lemma LoopIs(c: Expr, b: Block)
    ensures StmtToks(Loop(c, b)) == LoopToks(c, b)
    ensures |StmtToks(Loop(c, b))| == 1 + |ExprToks(c)| + |BlockToks(b)| + 1
  {
  }

  lemma TimesOut(l: Lang, p: seq<Token>, st: St, end: nat, close: nat)
    requires st.idx <= |p|
    ensures Lands(l, p, Running(st), 0, Timeout, 0, end, close, st.wn, st.fn, st.sc, st.sc)
  {
    OneRound(l, p, st);
  }

  lemma KeptDeeper(sc: ScVars, x: ScVal, w: int, f: int)
    ensures Kept(sc, sc[WhileVar(w + 1) := x], w, f)
  {
  }

  lemma KeptAt(sc: ScVars, sc1: ScVars, w: int, f: int, x: ScVar)
    requires Kept(sc, sc1, w, f) && Outer(x, w, f)
    ensures x in sc <==> x in sc1
    ensures x in sc ==> sc1[x] == sc[x]
  {
  }

  /** The closing token of a loop is where CONTINUE at it would go. */
  lemma EnclosesEnd(p: seq<Token>, m: nat)
    requires m < |p| && (p[m].kind == EndWhile || (p[m].kind == Next && m + 1 < |p|))
    ensures p[m].kind == EndWhile ==> Encloses(p, m, InWhile, m)
    ensures p[m].kind == Next ==> forall left :: Encloses(p, m, InFor(left), m)
    ensures Follows(p[m].kind)
  {
    ScanStops(p, m, LoopScan(0, 0));
  }

  lemma AtClose(l: Lang, p: seq<Token>, st: St, n: nat, r: Result, k: nat, m: nat, sc1: ScVars)
    requires st.idx <= |p| && r.Done? && r.sig != Broken
    requires Lands(l, p, Running(st), n, r, k, m, m, st.wn, st.fn, st.sc, sc1)
    ensures m <= |p| && Run(l, p, n, Running(st)) == Running(St(m, r.env, st.wn, st.fn, sc1))
    ensures Kept(st.sc, sc1, st.wn, st.fn)
  {
    hide Run;
  }

  /** The first round of a loop, its body, its closing token. */
  lemma ThreeLegs(l: Lang, p: seq<Token>, st: St, st1: St, n: nat, st2: St, st3: St)
    requires st.idx <= |p| && st1.idx <= |p| && st2.idx <= |p|
    requires Turn(l, p, st) == Running(st1) && Run(l, p, n, Running(st1)) == Running(st2)
    requires Turn(l, p, st2) == Running(st3)
    ensures Run(l, p, 1 + n + 1, Running(st)) == Running(st3)
  {
    hide Turn, Run;
    OneRound(l, p, st);
    OneRound(l, p, st2);
    RunAdd(l, p, 1, n, Running(st));
    RunAdd(l, p, 1 + n, 1, Running(st));
  }

  /** BREAK_LOOP, an error, an exit or a timeout in the body. */
  lemma LeavesLoop(l: Lang, p: seq<Token>, st: St, st1: St, n: nat, x: Result, k: nat, m: nat, end: nat, close: nat,
                   sc1: ScVars)
    requires k > 0 && st.idx <= |p| && st1.idx <= |p| && end == m + 1 && (m < |p| ==> p[m].kind != Next)
    requires Turn(l, p, st) == Running(st1) && st1.wn == st.wn + 1 && st1.fn == st.fn
             && Kept(st.sc, st1.sc, st.wn, st.fn)
    requires x.Done? ==> x.sig == Broken
    requires Lands(l, p, Running(st1), n, x, k - 1, m, m, st1.wn, st1.fn, st1.sc, sc1)
    ensures Lands(l, p, Running(st), 1 + n, if x.Done? then Done(x.env, Normal) else x, k, end, close,
                  st.wn, st.fn, st.sc, sc1)
  {
    hide Turn, Run, Kept;
    OneRound(l, p, st);
    RunAdd(l, p, 1, n, Running(st));
    if x.Done? {
      KeptTrans(st.sc, st1.sc, sc1, st.wn, st.fn, st.wn + 1, st.fn);
    }
  }

  /** WHILE with a false or failing condition. */
  lemma LoopStops(l: Lang, p: seq<Token>, k: nat, c: Expr, b: Block, st: St, end: nat, close: nat, sc1: ScVars)
    requires k > 0 && st.idx <= |p| && Kept(st.sc, sc1, st.wn, st.fn)
    requires var r := Compute(l, c, st.env);
             match r
             case TooLong(v) => Ends(Turn(l, p, st), Exited, v)
             case Failing(v) => Ends(Turn(l, p, st), Aborted, v)
             case Got(t, v) => !l.truth(t) && Turn(l, p, st) == Running(St(end, v, st.wn, st.fn, sc1))
    ensures Lands(l, p, Running(st), 1, ExecLoop(l, k, c, b, st.env), k, end, close, st.wn, st.fn, st.sc, sc1)
  {
    hide Turn, Run, Kept, Compute, Exec;
    OneRound(l, p, st);
  }

  lemma {:induction false} CountLands(l: Lang, p: seq<Token>, k: nat, v: string, e1: Expr, e2: Expr, e3: Option<Expr>,
                                      b: Block,
                                      st: St, close: nat)
    returns (n: nat, sc1: ScVars)
    requires var s := Count(v, e1, e2, e3, b);
             At(p, st.idx, StmtToks(s)) && ProperStmt(s, Outside) && st.wn >= 0 && st.idx <= |p|
             && Follows(RawAt(p, st.idx + |StmtToks(s)|).kind)
    ensures var s := Count(v, e1, e2, e3, b);
            Lands(l, p, Running(st), n, ExecStmt(l, k, s, st.env), k, st.idx + |StmtToks(s)|, close,
                  st.wn, st.fn, st.sc, sc1)
    decreases k, |StmtToks(Count(v, e1, e2, e3, b))|, 1
  {
    hide At, Run, Turn, Lands, Follows, Kept, Compute, Enter, ForStands, StmtToks, ScanFrom;
    var end := st.idx + |StmtToks(Count(v, e1, e2, e3, b))|;
    var j1, j2 := ForLayout(p, st.idx, v, e1, e2, e3, b);
    var i := st.idx + 1 + |HeadToks(v, e1, e2, e3)|;
    ForTurn(l, p, st, v, e1, e2, e3, j1, j2, i, end);
    CountMeans(l, k, v, e1, e2, e3, b, st.env);
    OneRound(l, p, st);
    var r := Enter(l, v, e1, e2, e3, st.env);
    n, sc1 := 1, st.sc;
    if r.Entry? {
      var st1 := ForState(st, i, r);
      sc1 := st1.sc;
      KeptFor(st, i, r);
      if l.num(r.t1) <= l.num(r.t2) {
        n, sc1 := RoundsLands(l, p, k, v, r.t2, r.t3, b, false, st1, i + |BlockToks(b)|);
        RoundsSignal(l, k, v, l.num(r.t2), l.num(r.t3), b, r.env);
        RoundsClosed(l, p, st1, n, ExecRounds(l, k, v, l.num(r.t2), l.num(r.t3), b, r.env), Less(k), end, close, sc1);
        Chain(l, p, Running(st), 1, st1, n, ExecRounds(l, k, v, l.num(r.t2), l.num(r.t3), b, r.env), Less(k), k, end,
              close,
              st.wn, st.fn, st.sc, sc1);
        n := 1 + n;
      } else {
        Reached(l, p, st, 1, Done(r.env, Normal), k, end, close, sc1);
      }
    } else {
      Stopped(l, p, st, 1, if r.EntryFails? then Abort(r.env) else Quit(r.env), k, end, close, st.fn, sc1);
    }
  }

  function Counted(l: Lang, k: nat, v: string, b: Block, r: Entered): Result {
    if r.EntryQuits? then Quit(r.env)
    else if r.EntryFails? then Abort(r.env)
    else if l.num(r.t1) > l.num(r.t2) then Done(r.env, Normal)
    else ExecRounds(l, k, v, l.num(r.t2), l.num(r.t3), b, r.env)
  }

  lemma CountMeans(l: Lang, k: nat, v: string, e1: Expr, e2: Expr, e3: Option<Expr>, b: Block, env: Env)
    ensures ExecStmt(l, k, Count(v, e1, e2, e3, b), env) == LoopOver(Counted(l, k, v, b, Enter(l, v, e1, e2, e3, env)))
  {
    hide Compute, ExecRounds;
  }

  lemma KeptFor(st: St, i: nat, r: Entered)
    requires r.Entry?
    ensures Kept(st.sc, ForState(st, i, r).sc, st.wn, st.fn)
  {
  }

  lemma Stopped(l: Lang, p: seq<Token>, st: St, n: nat, r: Result, k: nat, end: nat, close: nat, f: int, sc1: ScVars)
    requires st.idx <= |p| && (r.Abort? || r.Quit?)
    requires Ends(Run(l, p, n, Running(st)), if r.Abort? then Aborted else Exited, r.env)
    ensures Lands(l, p, Running(st), n, r, k, end, close, st.wn, f, st.sc, sc1)
  {
    hide Run, Kept;
  }

  /** The three variables a FOR at level `f` keeps. */
  ghost predicate Limits(sc: ScVars, f: int, t2: string, t3: string, i: nat) {
    && ToVar(f) in sc && sc[ToVar(f)] == Text(t2)
    && StepVar(f) in sc && sc[StepVar(f)] == Text(t3)
    && ForVar(f) in sc && sc[ForVar(f)] == Index(i)
  }

  lemma LimitsKept(sc: ScVars, sc1: ScVars, w: int, f: int, t2: string, t3: string, i: nat)
    requires Kept(sc, sc1, w, f) && Limits(sc, f, t2, t3, i)
    ensures Limits(sc1, f, t2, t3, i)
  {
    KeptAt(sc, sc1, w, f, ToVar(f));
    KeptAt(sc, sc1, w, f, StepVar(f));
    KeptAt(sc, sc1, w, f, ForVar(f));
  }

  lemma KeptLess(sc: ScVars, sc1: ScVars, w: int, f: int)
    requires Kept(sc, sc1, w, f)
    ensures Kept(sc, sc1, w, f - 1)
  {
    forall x: ScVar | Outer(x, w, f - 1)
      ensures (x in sc <==> x in sc1) && (x in sc ==> sc[x] == sc1[x])
    {
      assert Outer(x, w, f);
    }
  }

  function Less(k: nat): nat { if k == 0 then 0 else k - 1 }

  /** `n` rounds from the head of the body of a FOR lead behind its NEXT, one level lower, or, where
      BREAK_LOOP has left it, there on the same level. */
  ghost predicate RoundsLand(l: Lang, p: seq<Token>, st: St, n: nat, r: Result, k: nat, end: nat, sc1: ScVars)
    requires st.idx <= |p|
  {
    var d := Run(l, p, n, Running(st));
    match r
    case Done(v, Normal) => d == Running(St(end, v, st.wn, st.fn - 1, sc1)) && Kept(st.sc, sc1, st.wn, st.fn - 1)
    case Done(v, Broken) => d == Running(St(end, v, st.wn, st.fn, sc1)) && Kept(st.sc, sc1, st.wn, st.fn - 1)
    case Done(v, Continued) => false
    case Abort(v) => Ends(d, Aborted, v)
    case Caught(v) => Ends(d, ErrorClause, v)
    case Quit(v) => Ends(d, Exited, v)
    case Timeout => n >= k && d.Running?
  }

  /** The rounds of a FOR from the head of its body on; the round that led there is not counted. */
  lemma {:induction false} RoundsLands(l: Lang, p: seq<Token>, k: nat, v: string, t2: string, t3: string, b: Block,
                                       left: bool, st: St, m: nat)
    returns (n: nat, sc1: ScVars)
    requires At(p, st.idx, BlockToks(b)) && Proper(b, InFor(left)) && st.wn >= 0 && st.idx <= |p|
    requires m == st.idx + |BlockToks(b)| && m + 1 < |p|
    requires p[m] == Sign(Next) && p[m + 1] == Token(Value(Identifier), v) && Follows(RawAt(p, m + 2).kind)
    requires Limits(st.sc, st.fn, t2, t3, st.idx)
    ensures RoundsLand(l, p, st, n, ExecRounds(l, k, v, l.num(t2), l.num(t3), b, st.env), Less(k), m + 2, sc1)
    decreases k, |BlockToks(b)|, 4
  {
    hide At, Run, Turn, Lands, RoundsLand, Follows, Kept, Encloses, Exec, Proper, BlockToks, ScanFrom, Limits, Wrap32;
    n, sc1 := 0, st.sc;
    if k == 0 {
      RoundsTimeOut(l, p, st, m + 2);
    } else {
      EnclosesEnd(p, m);
      n, sc1 := BlockLands(l, p, k - 1, b, st, InFor(left), m);
      var x := Exec(l, k - 1, b, st.env);
      if x.Done? && x.sig != Broken {
        NextLands(l, p, st, v, t2, t3, n, x, k - 1, m, sc1);
        var z := Wrap32(if v in x.env then l.num(x.env[v]) + l.num(t3) else 0);
        if v in x.env && z <= l.num(t2) {
          var st1 := St(st.idx, x.env[v := l.show(z)], st.wn, st.fn, sc1);
          var n1, sc3 := RoundsLands(l, p, k - 1, v, t2, t3, b, left, st1, m);
          RoundsChain(l, p, st, n + 1, st1, n1, ExecRounds(l, k - 1, v, l.num(t2), l.num(t3), b, st1.env),
                      Less(k - 1), k - 1,
                      m + 2, sc3);
          n, sc1 := n + 1 + n1, sc3;
        } else {
          n := n + 1;
          RoundsEnd(l, p, st, n, if v in x.env then Done(x.env, Normal) else Abort(x.env), k - 1, m + 2, sc1);
        }
      } else {
        RoundsBreak(l, p, st, n, x, k - 1, m, sc1);
      }
    }
  }

  lemma RoundsChain(l: Lang, p: seq<Token>, st: St, n1: nat, st1: St, n2: nat, r: Result, k1: nat, k: nat, end: nat,
                    sc2: ScVars)
    requires st.idx <= |p| && st1.idx <= |p| && Run(l, p, n1, Running(st)) == Running(st1)
    requires st1.wn == st.wn && st1.fn == st.fn && Kept(st.sc, st1.sc, st.wn, st.fn - 1)
    requires RoundsLand(l, p, st1, n2, r, k1, end, sc2) && n1 + k1 >= k
    ensures RoundsLand(l, p, st, n1 + n2, r, k, end, sc2)
  {
    hide Run, Kept;
    RunAdd(l, p, n1, n2, Running(st));
    if r.Done? {
      KeptTrans(st.sc, st1.sc, sc2, st.wn, st.fn - 1, st.wn, st.fn - 1);
    }
  }

  /** Without BREAK_LOOP the rounds land as a block does. */
  lemma RoundsClosed(l: Lang, p: seq<Token>, st: St, n: nat, r: Result, k: nat, end: nat, close: nat, sc1: ScVars)
    requires st.idx <= |p| && Signalled(r, Outside) && RoundsLand(l, p, st, n, r, k, end, sc1)
    ensures Lands(l, p, Running(st), n, r, k, end, close, st.wn, st.fn - 1, st.sc, sc1)
  {
    hide Run, Kept;
  }

  lemma RoundsTimeOut(l: Lang, p: seq<Token>, st: St, end: nat)
    requires st.idx <= |p|
    ensures RoundsLand(l, p, st, 0, Timeout, 0, end, st.sc)
  {
    OneRound(l, p, st);
  }

  /** From a finished body over NEXT. */
  lemma NextLands(l: Lang, p: seq<Token>, st: St, v: string, t2: string, t3: string, n: nat, x: Result, k: nat,
                  m: nat, sc1: ScVars)
    requires st.idx <= |p| && x.Done? && x.sig != Broken && m + 1 < |p|
    requires p[m] == Sign(Next) && p[m + 1] == Token(Value(Identifier), v) && Follows(RawAt(p, m + 2).kind)
    requires Limits(st.sc, st.fn, t2, t3, st.idx)
    requires Lands(l, p, Running(st), n, x, k, m, m, st.wn, st.fn, st.sc, sc1)
    ensures Limits(sc1, st.fn, t2, t3, st.idx) && Kept(st.sc, sc1, st.wn, st.fn - 1)
    ensures var c := Run(l, p, n + 1, Running(st));
            if v !in x.env then Ends(c, Aborted, x.env)
            else
              var z := Wrap32(l.num(x.env[v]) + l.num(t3));
              c == Running(if z > l.num(t2) then St(m + 2, x.env, st.wn, st.fn - 1, sc1)
                           else St(st.idx, x.env[v := l.show(z)], st.wn, st.fn, sc1))
  {
    hide Run, Turn, Lands, Kept, Follows;
    AtClose(l, p, st, n, x, k, m, sc1);
    LimitsKept(st.sc, sc1, st.wn, st.fn, t2, t3, st.idx);
    KeptLess(st.sc, sc1, st.wn, st.fn);
    var st1 := St(m, x.env, st.wn, st.fn, sc1);
    NextTurn(l, p, st1, v, st.idx, t2, t3);
    OneRound(l, p, st1);
    RunAdd(l, p, n, 1, Running(st));
  }

  lemma RoundsEnd(l: Lang, p: seq<Token>, st: St, n: nat, r: Result, k: nat, end: nat, sc1: ScVars)
    requires st.idx <= |p| && Kept(st.sc, sc1, st.wn, st.fn - 1)
    requires match r
             case Done(v, s) => s == Normal && Run(l, p, n, Running(st)) == Running(St(end, v, st.wn, st.fn - 1, sc1))
             case Abort(v) => Ends(Run(l, p, n, Running(st)), Aborted, v)
             case _ => false
    ensures RoundsLand(l, p, st, n, r, k, end, sc1)
  {
    hide Run, Kept;
  }

  /** BREAK_LOOP, an error, an exit or a timeout in a body is one of the loop. */
  lemma RoundsBreak(l: Lang, p: seq<Token>, st: St, n: nat, x: Result, k: nat, m: nat, sc1: ScVars)
    requires st.idx <= |p| && (x.Done? ==> x.sig == Broken) && m < |p| && p[m].kind == Next
    requires Lands(l, p, Running(st), n, x, k, m, m, st.wn, st.fn, st.sc, sc1)
    ensures RoundsLand(l, p, st, n, x, k, m + 2, sc1)
  {
    hide Run, Kept;
    if x.Done? { KeptLess(st.sc, sc1, st.wn, st.fn); }
  }

  /** CONTINUE leaves only blocks inside a loop, BREAK_LOOP only blocks whose loop it may leave. */
  ghost predicate Signalled(r: Result, ctx: Ctx) {
    r.Done? ==> (r.sig == Broken ==> MayBreak(ctx)) && (r.sig == Continued ==> ctx != Outside)
  }

  lemma {:induction false} SignalsProper(l: Lang, k: nat, b: Block, env: Env, ctx: Ctx)
    requires Proper(b, ctx)
    ensures Signalled(Exec(l, k, b, env), ctx)
    decreases k, b, 0
  {
    if b.Cons? {
      StmtSignalsProper(l, k, b.s, env, ctx);
      var r := ExecStmt(l, k, b.s, env);
      if r.Done? && r.sig == Normal { SignalsProper(l, k, b.rest, r.env, ctx); }
    }
  }

  lemma {:induction false} StmtSignalsProper(l: Lang, k: nat, s: Stmt, env: Env, ctx: Ctx)
    requires ProperStmt(s, ctx)
    ensures Signalled(ExecStmt(l, k, s, env), ctx)
    decreases k, s, 1
  {
    hide Compute;
    match s
    case Cond(c, b, els) =>
      var r := Compute(l, c, env);
      if r.Got? {
        SignalsProper(l, k, b, r.env, ctx);
        ElseSignalsProper(l, k, els, r.env, ctx);
      }
    case Loop(c, b) => LoopSignals(l, k, c, b, env);
    case Count(v, e1, e2, e3, b) =>
      CountMeans(l, k, v, e1, e2, e3, b, env);
      var r := Enter(l, v, e1, e2, e3, env);
      if r.Entry? { RoundsSignal(l, k, v, l.num(r.t2), l.num(r.t3), b, r.env); }
    case _ =>
  }

  lemma {:induction false} ElseSignalsProper(l: Lang, k: nat, e: Alternative, env: Env, ctx: Ctx)
    requires ProperElse(e, ctx)
    ensures Signalled(ExecElse(l, k, e, env), ctx)
    decreases k, e, 0
  {
    hide Compute;
    match e
    case NoElse =>
    case Otherwise(b) => SignalsProper(l, k, b, env, ctx);
    case OtherIf(c, b, els) =>
      var r := Compute(l, c, env);
      SignalsProper(l, k, b, r.env, ctx);
      ElseSignalsProper(l, k, els, r.env, ctx);
  }

  lemma {:induction false} LoopSignals(l: Lang, k: nat, c: Expr, b: Block, env: Env)
    ensures Signalled(ExecLoop(l, k, c, b, env), Outside)
    decreases k
  {
    hide Compute, Exec;
    var r := Compute(l, c, env);
    if k > 0 && r.Got? && l.truth(r.text) {
      var x := Exec(l, k - 1, b, r.env);
      if x.Done? { LoopSignals(l, k - 1, c, b, x.env); }
    }
  }

  lemma {:induction false} RoundsSignal(l: Lang, k: nat, v: string, y: int, z: int, b: Block, env: Env)
    requires Proper(b, InFor(false))
    ensures Signalled(ExecRounds(l, k, v, y, z, b, env), Outside)
    decreases k, b, 1
  {
    hide Exec;
    if k > 0 {
      SignalsProper(l, k - 1, b, env, InFor(false));
      var x := Exec(l, k - 1, b, env);
      if x.Done? && v in x.env {
        RoundsSignal(l, k - 1, v, y, z, b, x.env[v := l.show(Wrap32(l.num(x.env[v]) + z))]);
      }
    }
  }
}
