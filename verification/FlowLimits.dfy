/** Where the flat machine does not do what one would expect of a script: BREAK_LOOP out of a FOR, an
    error behind ELSE_IF, and nested FOR loops of one name. */
module FlowLimits {
  import opened Tokens
  import opened Programs
  import opened ExpressionTree
  import opened Flow
  import opened Machine
  import opened Structured
  import opened FlowScans
  import opened FlowTurns
  import opened FlowLoops
  import opened FlowCorrect
  import opened FlowTheorem

  // ---------------------------------------------------------------- numbers in scripts

  function Num(text: string): Expr { One(Atom(Number, text)) }

  lemma NumComputes(l: Lang, text: string, env: Env)
    ensures Compute(l, Num(text), env) == Got(text, env)
  {
    var t := Atom(Number, text);
    assert TermQueue(t) == [Token(Value(Number), text)];
    assert ResolvedTerm(l.ops, env, t) == t;
    assert Resolved(l.ops, env, One(t)) == One(t);
    assert EvalTerm(l.ops, t, env) == Valued(Some(TypedText(Number, text)), env);
    assert Eval(l.ops, One(t), env) == EvalTerm(l.ops, t, env);
  }

  // ---------------------------------------------------------------- BREAK_LOOP out of a FOR

  /** The state behind a FOR: on the level it had, or one higher where BREAK_LOOP has left it. */
  ghost predicate ForLands(l: Lang, p: seq<Token>, st: St, n: nat, r: Result, k: nat, end: nat, sc1: ScVars)
    requires st.idx <= |p|
  {
    var d := Run(l, p, n, Running(st));
    match r
    case Done(v, sig) =>
      && d == Running(St(end, v, st.wn, if sig == Broken then st.fn + 1 else st.fn, sc1))
      && Kept(st.sc, sc1, st.wn, st.fn) && sig != Continued
    case Abort(v) => Ends(d, Aborted, v)
    case Caught(v) => Ends(d, ErrorClause, v)
    case Quit(v) => Ends(d, Exited, v)
    case Timeout => n >= k && d.Running?
  }

  /** A FOR whose body may BREAK_LOOP on its own level goes on behind its NEXT with the variables its
      meaning says. Its nest is back at the value on entry if and only if the rounds do not end at a
      BREAK_LOOP; else it is one higher. */
  lemma NestBack(l: Lang, p: seq<Token>, k: nat, v: string, e1: Expr, e2: Expr, e3: Option<Expr>, b: Block, st: St)
    returns (n: nat, sc1: ScVars)
    requires var s := Count(v, e1, e2, e3, b);
             At(p, st.idx, StmtToks(s)) && st.wn >= 0 && st.idx <= |p| && Follows(RawAt(p, st.idx + |StmtToks(s)|).kind)
    requires v !in LoopNames(b) && Proper(b, InFor(true))
    ensures var s, r := Count(v, e1, e2, e3, b), Counted(l, k, v, b, Enter(l, v, e1, e2, e3, st.env));
            && ExecStmt(l, k, s, st.env) == LoopOver(r)
            && ForLands(l, p, st, n, r, k, st.idx + |StmtToks(s)|, sc1)
            && (r.Done? ==> (Run(l, p, n, Running(st)).st.fn == st.fn <==> r.sig != Broken))
  {
    hide At, Run, Turn, RoundsLand, Follows, Kept, Compute, Enter, ForStands, StmtToks, ScanFrom, ExecRounds;
    var end := st.idx + |StmtToks(Count(v, e1, e2, e3, b))|;
    var j1, j2 := ForLayout(p, st.idx, v, e1, e2, e3, b);
    var i := st.idx + 1 + |HeadToks(v, e1, e2, e3)|;
    ForTurn(l, p, st, v, e1, e2, e3, j1, j2, i, end);
    CountMeans(l, k, v, e1, e2, e3, b, st.env);
    OneRound(l, p, st);
    var r := Enter(l, v, e1, e2, e3, st.env);
    n, sc1 := 1, st.sc;
    if r.Entry? {
      var st1 := ForState(st, i, r);
      sc1 := st1.sc;
      KeptFor(st, i, r);
      if l.num(r.t1) <= l.num(r.t2) {
        var x := ExecRounds(l, k, v, l.num(r.t2), l.num(r.t3), b, r.env);
        n, sc1 := RoundsLands(l, p, k, v, r.t2, r.t3, b, true, st1, i + |BlockToks(b)|);
        Landed(l, p, k, st, st1, n, x, end, sc1);
        n := 1 + n;
      }
    }
  }

  lemma Landed(l: Lang, p: seq<Token>, k: nat, st: St, st1: St, n: nat, x: Result, end: nat, sc1: ScVars)
    requires st.idx <= |p| && st1.idx <= |p| && Run(l, p, 1, Running(st)) == Running(st1)
    requires st1.wn == st.wn && st1.fn == st.fn + 1 && Kept(st.sc, st1.sc, st.wn, st.fn)
    requires RoundsLand(l, p, st1, n, x, Less(k), end, sc1)
    ensures ForLands(l, p, st, 1 + n, x, k, end, sc1)
  {
    hide Run, Kept;
    RunAdd(l, p, 1, n, Running(st));
    if x.Done? {
      KeptTrans(st.sc, st1.sc, sc1, st.wn, st.fn, st.wn, st.fn);
    }
  }

  /** The guard of a proper script: no BREAK_LOOP on a FOR's own level, and the nest is back. */
  lemma GuardSuffices(l: Lang, k: nat, v: string, e1: Expr, e2: Expr, e3: Option<Expr>, b: Block, env: Env)
    requires ProperStmt(Count(v, e1, e2, e3, b), Outside)
    ensures var r := Counted(l, k, v, b, Enter(l, v, e1, e2, e3, env)); r.Done? ==> r.sig != Broken
    ensures Proper(b, InFor(true))
  {
    hide Enter, ExecRounds;
    var r := Enter(l, v, e1, e2, e3, env);
    if r.Entry? {
      RoundsSignal(l, k, v, l.num(r.t2), l.num(r.t3), b, r.env);
    }
    MayBeLeft(b);
  }

  lemma {:induction false} MayBeLeft(b: Block)
    requires Proper(b, InFor(false))
    ensures Proper(b, InFor(true))
    decreases b, 0
  {
    if b.Cons? {
      StmtMayBeLeft(b.s);
      MayBeLeft(b.rest);
    }
  }

  lemma {:induction false} StmtMayBeLeft(s: Stmt)
    requires ProperStmt(s, InFor(false))
    ensures ProperStmt(s, InFor(true))
    decreases s, 0
  {
    if s.Cond? {
      MayBeLeft(s.then_);
      ElseMayBeLeft(s.els);
    }
  }

  lemma {:induction false} ElseMayBeLeft(e: Alternative)
    requires ProperElse(e, InFor(false))
    ensures ProperElse(e, InFor(true))
    decreases e, 0
  {
    match e
    case NoElse =>
    case Otherwise(b) => MayBeLeft(b);
    case OtherIf(_, b, els) => MayBeLeft(b); ElseMayBeLeft(els);
  }

  // ---------------------------------------------------------------- errors behind ELSE_IF

  /** An IF that an error in any of its conditions ends. */
  ghost function StrictPick(l: Lang, i: nat, c: Expr, b: Block, els: Alternative, env: Env): Picked
    decreases els
  {
    var n := i + |ExprToks(c)|;
    match Compute(l, c, env)
    case TooLong(v) => PickQuits(v)
    case Failing(v) => PickFails(v)
    case Got(t, v) =>
      if l.truth(t) then Taken(b, n, els, v)
      else
        var m := n + |BlockToks(b)| + 1;
        match els
        case NoElse => Ended(m, v)
        case Otherwise(b1) => Taken(b1, m, NoElse, v)
        case OtherIf(c1, b1, els1) => StrictPick(l, m, c1, b1, els1, v)
  }

  /** The conditions behind ELSE_IF come to one that cannot be computed. */
  ghost predicate ElseIfFails(l: Lang, els: Alternative, env: Env)
    decreases els
  {
    match els
    case OtherIf(c, _, els1) =>
      (match Compute(l, c, env)
       case TooLong(_) => false
       case Failing(_) => true
       case Got(t, v) => !l.truth(t) && ElseIfFails(l, els1, v))
    case _ => false
  }

  /** `cmd_if` does what an error should do if and only if no condition it comes to behind an ELSE_IF
      fails; else it takes a branch all the same. */
  lemma {:induction false} ErrorDropped(l: Lang, i: nat, c: Expr, b: Block, els: Alternative, env: Env)
    ensures var r := Compute(l, c, env);
            var dropped := r.Got? && !l.truth(r.text) && ElseIfFails(l, els, r.env);
            && (Pick(l, i, c, b, els, env) == StrictPick(l, i, c, b, els, env) <==> !dropped)
            && (dropped ==> Pick(l, i, c, b, els, env).Taken? && StrictPick(l, i, c, b, els, env).PickFails?)
    decreases els
  {
    hide Compute;
    var r := Compute(l, c, env);
    if r.Got? && !l.truth(r.text) && els.OtherIf? {
      ErrorDropped(l, i + |ExprToks(c)| + |BlockToks(b)| + 1, els.c, els.b, els.els, r.env);
    }
  }

  /** A call with four arguments is an error of any function. */
  function FourArguments(): Expr {
    var one := Num("1");
    One(Call(0, Arg(one, Arg(one, Arg(one, Arg(one, NoArgs))))))
  }

  lemma FourFail(l: Lang, env: Env)
    ensures Compute(l, FourArguments(), env).Failing?
  {
    var one, none := Num("1"), NoArgs;
    var t := Atom(Number, "1");
    var a1 := Arg(one, none);
    var a2 := Arg(one, a1);
    var a3 := Arg(one, a2);
    var a4 := Arg(one, a3);
    assert EvalTerm(l.ops, t, env) == Valued(Some(TypedText(Number, "1")), env);
    assert Eval(l.ops, one, env) == EvalTerm(l.ops, t, env);
    assert EvalArgs(l.ops, none, env) == Slots(true, [], env);
    assert EvalArgs(l.ops, a1, env) == Slots(true, ["1"], env);
    assert EvalArgs(l.ops, a2, env) == Slots(true, ["1", "1"], env);
    assert EvalArgs(l.ops, a3, env) == Slots(true, ["1", "1", "1"], env);
    assert !EvalArgs(l.ops, a4, env).ok;
    assert Resolved(l.ops, env, one) == one;
    assert ResolvedArgs(l.ops, env, a1) == a1;
    assert ResolvedArgs(l.ops, env, a2) == a2;
    assert ResolvedArgs(l.ops, env, a3) == a3;
    assert ResolvedArgs(l.ops, env, a4) == a4;
    assert ExprQueue(one) == [Token(Value(Number), "1")];
    assert MoreQueue(a1) == [Sign(Comma), Token(Value(Number), "1")];
    assert |MoreQueue(a2)| == 4;
    assert |MoreQueue(a3)| == 6;
    assert |ArgQueue(a4)| == 7;
    var call := Call(0, a4);
    assert ResolvedTerm(l.ops, env, call) == call;
    assert Resolved(l.ops, env, One(call)) == One(call);
    assert |TermQueue(call)| == 9;
    assert EvalTerm(l.ops, call, env).value.None?;
    assert Eval(l.ops, One(call), env) == EvalTerm(l.ops, call, env);
  }

  /** IF 0, ELSE_IF with such a call: the branch is taken. */
  lemma BranchTaken(l: Lang, i: nat, b: Block, env: Env)
    requires !l.truth("0")
    ensures var r := Pick(l, i, Num("0"), Nil, OtherIf(FourArguments(), b, NoElse), env); r.Taken? && r.b == b
    ensures StrictPick(l, i, Num("0"), Nil, OtherIf(FourArguments(), b, NoElse), env).PickFails?
  {
    hide Compute;
    NumComputes(l, "0", env);
    FourFail(l, env);
  }

  // ---------------------------------------------------------------- the skip of an empty FOR

  lemma StopsFirst(s: Scanner, a: seq<Token>, b: seq<Token>)
    requires ScanAll(s, a) == Stop
    ensures ScanAll(s, a + b) == Stop
  {
    ScanAllAppend(s, a, b);
  }

  lemma StopsBehind(s: Scanner, a: seq<Token>, b: seq<Token>)
    requires ScanAll(s, a) == Go(s) && ScanAll(s, b) == Stop
    ensures ScanAll(s, a + b) == Stop
  {
    ScanAllAppend(s, a, b);
  }

  /** The scan for a name stops inside a block in which a FOR has the name. */
  lemma {:induction false} BlockStops(v: string, b: Block)
    requires v in LoopNames(b)
    ensures ScanAll(ForScan(v, false), BlockToks(b)) == Stop
    decreases b, 0
  {
    hide ScanAll, ScanToken, StmtToks;
    var s := ForScan(v, false);
    if v in StmtLoopNames(b.s) {
      StmtStops(v, b.s);
      StopsFirst(s, StmtToks(b.s), BlockToks(b.rest));
    } else {
      StmtNeutral(s, b.s);
      BlockStops(v, b.rest);
      StopsBehind(s, StmtToks(b.s), BlockToks(b.rest));
    }
  }

  lemma {:induction false} StmtStops(v: string, t: Stmt)
    requires v in StmtLoopNames(t)
    ensures ScanAll(ForScan(v, false), StmtToks(t)) == Stop
    decreases t, 1
  {
    hide ScanAll, ScanToken, BlockToks, ExprToks, ElseToks, HeadToks, NextToks;
    var s := ForScan(v, false);
    match t {
      case Cond(c, b, els) =>
        KeywordNeutral(s, If);
        ExprNeutral(s, c);
        if v in LoopNames(b) { BlockStops(v, b); } else { ElseStops(v, els); }
        BranchStops(v, b, els);
        StopsBehind(s, ExprToks(c), BlockToks(b) + ElseToks(els));
        StopsBehind(s, [Sign(If)], ExprToks(c) + (BlockToks(b) + ElseToks(els)));
      case Loop(c, b) =>
        KeywordNeutral(s, While);
        ExprNeutral(s, c);
        BlockStops(v, b);
        StopsFirst(s, BlockToks(b), [Sign(EndWhile)]);
        StopsBehind(s, ExprToks(c), BlockToks(b) + [Sign(EndWhile)]);
        StopsBehind(s, [Sign(While)], ExprToks(c) + (BlockToks(b) + [Sign(EndWhile)]));
      case Count(x, e1, e2, e3, b) =>
        KeywordNeutral(s, For);
        HeadNeutral(s, x, e1, e2, e3);
        if v in LoopNames(b) {
          BlockStops(v, b);
          StopsFirst(s, BlockToks(b), NextToks(x));
        } else {
          BlockNeutral(s, b);
          NextStops(v);
          StopsBehind(s, BlockToks(b), NextToks(x));
        }
        StopsBehind(s, HeadToks(x, e1, e2, e3), BlockToks(b) + NextToks(x));
        StopsBehind(s, [Sign(For)], HeadToks(x, e1, e2, e3) + (BlockToks(b) + NextToks(x)));
        CountToks(x, e1, e2, e3, b);
      case Guarded(t1, clause) =>
        StmtStops(v, t1);
        StopsFirst(s, StmtToks(t1), ClauseToks(clause));
      case _ =>
    }
  }

  lemma BranchStops(v: string, b: Block, els: Alternative)
    requires if v in LoopNames(b) then ScanAll(ForScan(v, false), BlockToks(b)) == Stop
             else ScanAll(ForScan(v, false), ElseToks(els)) == Stop
    ensures ScanAll(ForScan(v, false), BlockToks(b) + ElseToks(els)) == Stop
  {
    hide ScanAll, ScanToken, BlockToks, ElseToks;
    var s := ForScan(v, false);
    if v in LoopNames(b) {
      StopsFirst(s, BlockToks(b), ElseToks(els));
    } else {
      BlockNeutral(s, b);
      StopsBehind(s, BlockToks(b), ElseToks(els));
    }
  }

  lemma {:induction false} ElseStops(v: string, e: Alternative)
    requires v in ElseLoopNames(e)
    ensures ScanAll(ForScan(v, false), ElseToks(e)) == Stop
    decreases e, 1
  {
    hide ScanAll, ScanToken, BlockToks, ExprToks;
    var s := ForScan(v, false);
    match e {
      case NoElse =>
      case Otherwise(b) =>
        KeywordNeutral(s, Else);
        BlockStops(v, b);
        StopsFirst(s, BlockToks(b), [Sign(EndIf)]);
        StopsBehind(s, [Sign(Else)], BlockToks(b) + [Sign(EndIf)]);
      case OtherIf(c, b, els) =>
        KeywordNeutral(s, ElseIf);
        ExprNeutral(s, c);
        if v in LoopNames(b) { BlockStops(v, b); } else { ElseStops(v, els); }
        BranchStops(v, b, els);
        StopsBehind(s, ExprToks(c), BlockToks(b) + ElseToks(els));
        StopsBehind(s, [Sign(ElseIf)], ExprToks(c) + (BlockToks(b) + ElseToks(els)));
    }
  }

  lemma KeywordNeutral(s: Scanner, k: Kind)
    requires s.ForScan? && !s.flag && k != Next
    ensures ScanAll(s, [Sign(k)]) == Go(s)
  {
    FlowScans.Single(s, Sign(k));
  }

  lemma NextStops(v: string)
    ensures ScanAll(ForScan(v, false), NextToks(v)) == Stop
  {
    var s, u := ForScan(v, false), Token(Value(Identifier), v);
    ScanAllAppend(s, [Sign(Next)], [u]);
    FlowScans.Single(s, Sign(Next));
    FlowScans.Single(ForScan(v, true), u);
  }

  lemma {:induction false} ScanWithin(p: seq<Token>, i: nat, toks: seq<Token>, s: Scanner)
    requires At(p, i, toks) && ScanAll(s, toks) == Stop
    ensures i < |p| && ScanFrom(p, i, s) < i + |toks|
    decreases |toks|
  {
    hide ScanToken;
    assert toks == [toks[0]] + toks[1..];
    AtHead(p, i, toks[0], toks[1..]);
    var r := ScanToken(s, toks[0]);
    if r.Go? { ScanWithin(p, i + 1, toks[1..], r.s); }
  }

  /** The skip of an empty FOR finds the NEXT of its own loop if and only if no FOR inside has its
      name; else it stops at the name behind a NEXT inside the body. */
  lemma SkipFindsNext(p: seq<Token>, n: nat, v: string, b: Block)
    requires At(p, n, BlockToks(b) + NextToks(v))
    ensures n <= |p|
    ensures ScanFrom(p, n, ForScan(v, false)) == n + |BlockToks(b)| + 1 <==> v !in LoopNames(b)
    ensures v in LoopNames(b) ==> ScanFrom(p, n, ForScan(v, false)) < n + |BlockToks(b)|
  {
    hide At, ScanFrom, ScanAll, BlockToks, NextToks;
    AtSplit(p, n, BlockToks(b), NextToks(v));
    if v in LoopNames(b) {
      BlockStops(v, b);
      ScanWithin(p, n, BlockToks(b), ForScan(v, false));
    } else {
      ForSkips(p, n, v, b);
    }
  }

  // ---------------------------------------------------------------- a script that BREAK_LOOP spoils

  function Range(v: string, x: string, y: string, b: Block): Stmt { Count(v, Num(x), Num(y), None, b) }

  function Single(s: Stmt): Block { Cons(s, Nil) }

  lemma RangeSize(v: string, x: string, y: string, b: Block)
    ensures |HeadToks(v, Num(x), Num(y), None)| == 5 && |StmtToks(Range(v, x, y, b))| == 8 + |BlockToks(b)|
  {
    hide BlockToks;
    CountToks(v, Num(x), Num(y), None, b);
    assert TermToks(Atom(Number, x)) == [Token(Value(Number), x)]
           && TermToks(Atom(Number, y)) == [Token(Value(Number), y)];
  }

  lemma RangeEnters(l: Lang, v: string, x: string, y: string, env: Env)
    ensures Enter(l, v, Num(x), Num(y), None, env) == Entry(x, y, "1", env[v := x])
  {
    hide Compute;
    NumComputes(l, x, env);
    NumComputes(l, y, env[v := x]);
  }

  /** Where the parts of a counting loop stand, if the skip of an empty range stops at `j`. */
  lemma RangeStands(p: seq<Token>, i: nat, v: string, x: string, y: string, b: Block, j: nat)
    requires At(p, i, StmtToks(Range(v, x, y, b))) && Follows(RawAt(p, i + 8 + |BlockToks(b)|).kind)
    requires i + 6 <= |p| && ScanFrom(p, i + 6, ForScan(v, false)) == j < |p|
    requires RawAt(p, j + 1).kind != NoError && RawAt(p, j + 1).kind != Error
    ensures p[i] == Sign(For) && ForStands(p, i + 1, v, Num(x), Num(y), None, i + 4, i + 6, i + 6, j + 1)
  {
    hide At, ScanFrom, Follows, BlockToks;
    var head := HeadToks(v, Num(x), Num(y), None);
    RangeSize(v, x, y, b);
    CountToks(v, Num(x), Num(y), None, b);
    AtHead(p, i, Sign(For), head + (BlockToks(b) + NextToks(v)));
    AtSplit(p, i + 1, head, BlockToks(b) + NextToks(v));
    AtSplit(p, i + 6, BlockToks(b), NextToks(v));
    NextStands(p, i + 6 + |BlockToks(b)|, v);
    NextFollows();
    FirstFollows(p, i + 6, b);
    var j1, j2 := HeadLayout(p, i + 1, v, Num(x), Num(y), None);
    assert TermToks(Atom(Number, x)) == [Token(Value(Number), x)]
           && TermToks(Atom(Number, y)) == [Token(Value(Number), y)];
  }

  /** The round of a counting loop, at its FOR: into the body, or behind the token its skip finds. */
  lemma RangeTurn(l: Lang, p: seq<Token>, st: St, v: string, x: string, y: string, b: Block, j: nat)
    requires At(p, st.idx, StmtToks(Range(v, x, y, b))) && Follows(RawAt(p, st.idx + 8 + |BlockToks(b)|).kind)
    requires st.idx + 6 <= |p| && ScanFrom(p, st.idx + 6, ForScan(v, false)) == j < |p|
    requires RawAt(p, j + 1).kind != NoError && RawAt(p, j + 1).kind != Error
    ensures var f := st.fn + 1;
            var sc := st.sc[ToVar(f) := Text(y)][StepVar(f) := Text("1")][ForVar(f) := Index(st.idx + 6)];
            Turn(l, p, st) == Running(if l.num(x) <= l.num(y) then St(st.idx + 6, st.env[v := x], st.wn, f, sc)
                                      else St(j + 1, st.env[v := x], st.wn, st.fn, sc))
  {
    hide Turn, Enter, ForStands, At, ScanFrom, Follows;
    RangeStands(p, st.idx, v, x, y, b, j);
    RangeEnters(l, v, x, y, st.env);
    ForTurn(l, p, st, v, Num(x), Num(y), None, st.idx + 4, st.idx + 6, st.idx + 6, j + 1);
  }

  /** The body of a counting loop, and its NEXT behind it. */
  lemma RangeBody(p: seq<Token>, i: nat, v: string, x: string, y: string, b: Block)
    requires At(p, i, StmtToks(Range(v, x, y, b)))
    ensures At(p, i + 6, BlockToks(b) + NextToks(v)) && At(p, i + 6, BlockToks(b))
    ensures i + 6 + |BlockToks(b)| + 2 <= |p|
  {
    hide At, BlockToks;
    var head := HeadToks(v, Num(x), Num(y), None);
    RangeSize(v, x, y, b);
    CountToks(v, Num(x), Num(y), None, b);
    AtHead(p, i, Sign(For), head + (BlockToks(b) + NextToks(v)));
    AtSplit(p, i + 1, head, BlockToks(b) + NextToks(v));
    AtSplit(p, i + 6, BlockToks(b), NextToks(v));
  }

  lemma OneStmt(p: seq<Token>, i: nat, s: Stmt)
    requires At(p, i, BlockToks(Single(s)))
    ensures At(p, i, StmtToks(s)) && |BlockToks(Single(s))| == |StmtToks(s)|
  {
    assert BlockToks(Single(s)) == StmtToks(s) + BlockToks(Nil);
    AtSplit(p, i, StmtToks(s), []);
  }

  /** FOR i = 1 TO 1, FOR j = 1 TO 2, BREAK_LOOP, NEXT j, NEXT i. */
  function Spoiled(): Block { Single(Range("i", "1", "1", Single(Range("j", "1", "2", Single(Leave))))) }

  lemma SpoiledMeans(l: Lang)
    requires l.num("1") == 1 && l.num("2") == 2
    ensures Means(l, Spoiled(), map[], Done(map["i" := "1", "j" := "1"], Normal))
  {
    hide Enter, Compute;
    var inner := Single(Range("j", "1", "2", Single(Leave)));
    var e, e1: Env := map["i" := "1"], map["i" := "1", "j" := "1"];
    assert e["j" := "1"] == e1;
    RangeEnters(l, "j", "1", "2", e);
    CountMeans(l, 1, "j", Num("1"), Num("2"), None, Single(Leave), e);
    assert Exec(l, 0, Single(Leave), e1) == Done(e1, Broken);
    assert ExecRounds(l, 1, "j", 2, l.num("1"), Single(Leave), e1) == Done(e1, Broken);
    assert ExecStmt(l, 1, inner.s, e) == Done(e1, Normal);
    assert Exec(l, 1, inner, e) == Done(e1, Normal);
    RangeEnters(l, "i", "1", "1", map[]);
    CountMeans(l, 2, "i", Num("1"), Num("1"), None, inner, map[]);
    assert ExecRounds(l, 2, "i", 1, 1, inner, e) == Done(e1, Normal);
    assert Exec(l, 2, Spoiled(), map[]) == Done(e1, Normal);
  }

  /** The tokens of a counting loop. */
  lemma RangeToks(v: string, x: string, y: string, b: Block)
    ensures var name := Token(Value(Identifier), v);
            BlockToks(Single(Range(v, x, y, b)))
              == [Sign(For), name, Sign(Assign), Token(Value(Number), x), Sign(To), Token(Value(Number), y)]
                 + (BlockToks(b) + [Sign(Next), name])
  {
    hide BlockToks;
    var s := Range(v, x, y, b);
    assert BlockToks(Single(s)) == StmtToks(s) + [] by { SingleToks(s); }
    CountToks(v, Num(x), Num(y), None, b);
    assert TermToks(Atom(Number, x)) == [Token(Value(Number), x)];
    assert TermToks(Atom(Number, y)) == [Token(Value(Number), y)];
  }

  lemma SingleToks(s: Stmt)
    ensures BlockToks(Single(s)) == StmtToks(s) + []
  {
  }

  lemma SpoiledToks()
    ensures var one, two := Token(Value(Number), "1"), Token(Value(Number), "2");
            var name, j := Token(Value(Identifier), "i"), Token(Value(Identifier), "j");
            BlockToks(Spoiled()) ==
              [Sign(For), name, Sign(Assign), one, Sign(To), one, Sign(For), j, Sign(Assign), one, Sign(To), two,
               Sign(BreakLoop), Sign(Next), j, Sign(Next), name]
  {
    hide BlockToks;
    SingleToks(Leave);
    RangeToks("j", "1", "2", Single(Leave));
    RangeToks("i", "1", "1", Single(Range("j", "1", "2", Single(Leave))));
  }

  /** The run of the script: `NEXT i` takes the limits of the inner loop, goes round there, and the
      script ends with another value of `i` and a raised nest. */
  lemma SpoiledRuns(l: Lang)
    requires l.num("1") == 1 && l.num("2") == 2 && l.show(2) == "2"
    ensures var c := Run(l, BlockToks(Spoiled()), 7, Running(St(0, map[], 0, 0, map[])));
            c.Halted? && c.why == Finished && c.st.env == map["i" := "2", "j" := "1"] && c.st.fn == 1
  {
    hide Turn, Run, BlockToks, Wrap32;
    var p := BlockToks(Spoiled());
    SpoiledEnters(l);
    SpoiledToks();
    var e1, e2: Env := map["i" := "1", "j" := "1"], map["i" := "2", "j" := "1"];
    var sc := Opened(Opened(map[], 1, "1", 6), 2, "2", 12);
    SpoiledRound(l, e1, sc);
    SpoiledRound(l, e2, sc);
    assert e1["i" := "2"] == e2;
    var st := St(0, map[], 0, 0, map[]);
    RunAdd(l, p, 2, 2, Running(st));
    RunAdd(l, p, 4, 2, Running(st));
    var last := St(17, e2, 0, 1, sc);
    StopTurn(l, p, last);
    OneRound(l, p, last);
    RunAdd(l, p, 6, 1, Running(st));
  }

  /** The variables of a FOR on level `f`. */
  function Opened(sc: ScVars, f: int, limit: string, i: nat): ScVars {
    sc[ToVar(f) := Text(limit)][StepVar(f) := Text("1")][ForVar(f) := Index(i)]
  }

  /** Both loops entered. */
  lemma SpoiledEnters(l: Lang)
    requires l.num("1") == 1 && l.num("2") == 2
    ensures var p := BlockToks(Spoiled());
            Run(l, p, 2, Running(St(0, map[], 0, 0, map[])))
              == Running(St(12, map["i" := "1", "j" := "1"], 0, 2, Opened(Opened(map[], 1, "1", 6), 2, "2", 12)))
  {
    hide Turn, Run, At, ScanFrom, BlockToks, StmtToks, Follows;
    var p := BlockToks(Spoiled());
    var inner := Single(Range("j", "1", "2", Single(Leave)));
    SpoiledStands(p);
    NextFollows();
    var st := St(0, map[], 0, 0, map[]);
    RangeTurn(l, p, st, "i", "1", "1", inner, 16);
    OneRound(l, p, st);
    var st1 := St(6, map["i" := "1"], 0, 1, Opened(map[], 1, "1", 6));
    RangeTurn(l, p, st1, "j", "1", "2", Single(Leave), 14);
    OneRound(l, p, st1);
    RunAdd(l, p, 1, 1, Running(st));
    assert st1.env["j" := "1"] == map["i" := "1", "j" := "1"];
  }

  lemma SpoiledStands(p: seq<Token>)
    requires p == BlockToks(Spoiled())
    ensures var inner := Single(Range("j", "1", "2", Single(Leave)));
            && At(p, 0, StmtToks(Range("i", "1", "1", inner))) && At(p, 6, StmtToks(inner.s)) && |p| == 17
            && |BlockToks(inner)| == 9 && |BlockToks(Single(Leave))| == 1
            && ScanFrom(p, 6, ForScan("i", false)) == 16 && ScanFrom(p, 12, ForScan("j", false)) == 14
            && Follows(RawAt(p, 15).kind) && Follows(RawAt(p, 17).kind)
  {
    hide At, ScanFrom, BlockToks, StmtToks, Follows, LoopNames;
    var inner := Single(Range("j", "1", "2", Single(Leave)));
    assert "i" !in LoopNames(inner) && "j" !in LoopNames(Single(Leave)) by { SpoiledNames(); }
    SpoiledEnds();
    AtAll(p);
    OneStmt(p, 0, Spoiled().s);
    RangeBody(p, 0, "i", "1", "1", inner);
    OneStmt(p, 6, inner.s);
    RangeBody(p, 6, "j", "1", "2", Single(Leave));
    RangeSize("j", "1", "2", Single(Leave));
    RangeSize("i", "1", "1", inner);
    assert |BlockToks(Single(Leave))| == 1 by { LeaveSize(); }
    SkipFindsNext(p, 6, "i", inner);
    SkipFindsNext(p, 12, "j", Single(Leave));
  }

  lemma SpoiledNames()
    ensures "j" !in LoopNames(Single(Leave)) && "i" !in LoopNames(Single(Range("j", "1", "2", Single(Leave))))
  {
    assert LoopNames(Single(Leave)) == {};
    assert LoopNames(Single(Range("j", "1", "2", Single(Leave)))) == {"j"};
  }

  lemma SpoiledEnds()
    ensures var p := BlockToks(Spoiled()); |p| == 17 && Follows(RawAt(p, 15).kind) && Follows(RawAt(p, 17).kind)
  {
    hide BlockToks;
    SpoiledToks();
  }

  lemma LeaveSize()
    ensures |BlockToks(Single(Leave))| == 1
  {
    assert BlockToks(Single(Leave)) == StmtToks(Leave) + BlockToks(Nil);
  }

  /** From BREAK_LOOP over NEXT i, which counts on the level of the inner loop. */
  lemma SpoiledRound(l: Lang, env: Env, sc: ScVars)
    requires l.num("1") == 1 && l.num("2") == 2 && l.show(2) == "2"
    requires "i" in env && (env["i"] == "1" || env["i"] == "2")
    requires sc == Opened(Opened(map[], 1, "1", 6), 2, "2", 12)
    ensures var p := BlockToks(Spoiled());
            Run(l, p, 2, Running(St(12, env, 0, 2, sc)))
              == Running(if env["i"] == "1" then St(12, env["i" := "2"], 0, 2, sc) else St(17, env, 0, 1, sc))
  {
    hide Turn, Run, ScanFrom, BlockToks, Follows;
    var p := BlockToks(Spoiled());
    SpoiledToks();
    NextFollows();
    var st, st1 := St(12, env, 0, 2, sc), St(15, env, 0, 2, sc);
    ScanStops(p, 13, LoopScan(0, 0));
    BreakForTurn(l, p, st, 13);
    assert Follows(RawAt(p, 17).kind) by { EndFollows(p); }
    NextTurn(l, p, st1, "i", 12, "2", "1");
    OneRound(l, p, st);
    OneRound(l, p, st1);
    RunAdd(l, p, 1, 1, Running(st));
  }

  lemma EndFollows(p: seq<Token>)
    ensures Follows(RawAt(p, |p|).kind)
  {
  }

  lemma AtAll(p: seq<Token>)
    ensures At(p, 0, p)
  {
  }

  // ---------------------------------------------------------------- a script that one name spoils

  /** FOR i = 2 TO 1, FOR i = 1 TO 1, NEXT i, NEXT i. */
  function SameName(): Block { Single(Range("i", "2", "1", Single(Range("i", "1", "1", Nil)))) }

  lemma SameNameToks()
    ensures var name, one, two := Token(Value(Identifier), "i"), Token(Value(Number), "1"), Token(Value(Number), "2");
            BlockToks(SameName()) ==
              [Sign(For), name, Sign(Assign), two, Sign(To), one, Sign(For), name, Sign(Assign), one, Sign(To), one,
               Sign(Next), name, Sign(Next), name]
  {
    hide BlockToks;
    NilSize();
    RangeToks("i", "1", "1", Nil);
    RangeToks("i", "2", "1", Single(Range("i", "1", "1", Nil)));
  }

  /** The script means that nothing but the start value is set; the run skips into the body and ends
      the process at the outer NEXT. */
  lemma SameNameDisagrees(l: Lang)
    requires l.num("1") == 1 && l.num("2") == 2
    ensures Means(l, SameName(), map[], Done(map["i" := "2"], Normal))
    ensures var c := Run(l, BlockToks(SameName()), 2, Running(St(0, map[], 0, 0, map[])));
            Ends(c, Exited, map["i" := "2"])
  {
    hide Turn, Run, At, ScanFrom, BlockToks, StmtToks, Follows, Exec;
    var inner := Single(Range("i", "1", "1", Nil));
    var p := BlockToks(SameName());
    SameNameMeans(l);
    SameNameStands();
    NextFollows();
    var st := St(0, map[], 0, 0, map[]);
    RangeTurn(l, p, st, "i", "2", "1", inner, 13);
    var st1 := St(14, map["i" := "2"], 0, 0, Opened(map[], 1, "1", 6));
    NextExits(l, p, st1);
    OneRound(l, p, st);
    OneRound(l, p, st1);
    RunAdd(l, p, 1, 1, Running(st));
  }

  lemma SameNameMeans(l: Lang)
    requires l.num("1") == 1 && l.num("2") == 2
    ensures Exec(l, 0, SameName(), map[]) == Done(map["i" := "2"], Normal)
  {
    hide Compute, Enter;
    RangeEnters(l, "i", "2", "1", map[]);
    CountMeans(l, 0, "i", Num("2"), Num("1"), None, Single(Range("i", "1", "1", Nil)), map[]);
    assert map["i" := "2"] == map[]["i" := "2"];
  }

  lemma SameNameStands()
    ensures var p := BlockToks(SameName());
            && At(p, 0, StmtToks(SameName().s)) && |p| == 16 && |BlockToks(Single(Range("i", "1", "1", Nil)))| == 8
            && ScanFrom(p, 6, ForScan("i", false)) == 13 && Follows(RawAt(p, 14).kind) && Follows(RawAt(p, 16).kind)
            && p[14] == Sign(Next) && p[15] == Token(Value(Identifier), "i")
  {
    hide At, ScanFrom, BlockToks, StmtToks, Follows;
    var p := BlockToks(SameName());
    var inner := Range("i", "1", "1", Nil);
    AtAll(p);
    OneStmt(p, 0, SameName().s);
    RangeSize("i", "1", "1", Nil);
    RangeBody(p, 0, "i", "2", "1", Single(inner));
    OneStmt(p, 6, inner);
    NilSize();
    SameNameEnds();
    SameNameSkip();
  }

  lemma NilSize()
    ensures BlockToks(Nil) == []
  {
  }

  lemma SameNameEnds()
    ensures var p := BlockToks(SameName());
            && |p| == 16 && Follows(RawAt(p, 14).kind) && Follows(RawAt(p, 16).kind)
            && p[14] == Sign(Next) && p[15] == Token(Value(Identifier), "i")
  {
    hide BlockToks;
    SameNameToks();
  }

  lemma SameNameSkip()
    ensures |BlockToks(SameName())| == 16 && ScanFrom(BlockToks(SameName()), 6, ForScan("i", false)) == 13
  {
    hide BlockToks, ScanFrom, ScanToken;
    var p := BlockToks(SameName());
    SameNameToks();
    forall k | 6 <= k < 12 ensures p[k].kind != Next {
    }
    SkipsToNext(p, 6, 12, "i");
  }

  /** The skip goes over all tokens in front of a NEXT and stops at a name behind it. */
  lemma {:induction false} SkipsToNext(p: seq<Token>, i: nat, n: nat, v: string)
    requires i <= n && n + 1 < |p| && p[n].kind == Next && p[n + 1].text == v
    requires forall k :: i <= k < n ==> p[k].kind != Next
    ensures ScanFrom(p, i, ForScan(v, false)) == n + 1
    decreases n - i
  {
    hide ScanFrom;
    if i < n {
      ScanGoes(p, i, ForScan(v, false), ForScan(v, false));
      SkipsToNext(p, i + 1, n, v);
    } else {
      ScanGoes(p, n, ForScan(v, false), ForScan(v, true));
      ScanStops(p, n + 1, ForScan(v, true));
    }
  }

  /** NEXT on a level no FOR has opened. */
  lemma NextExits(l: Lang, p: seq<Token>, st: St)
    requires st.idx + 1 < |p| && p[st.idx] == Sign(Next) && p[st.idx + 1].kind == Value(Identifier)
    requires p[st.idx + 1].text in st.env && ToVar(st.fn) !in st.sc
    ensures Ends(Turn(l, p, st), Exited, st.env)
  {
    hide Turn;
    NextKeyword(l, p, st);
  }
}
