/** Bounds written with constants and `$` variables that no other loop sets are steady. */
module SmlScope {
  import opened Tokens
  import opened ExpressionTree
  import opened Flow
  import opened Structured
  import opened SmlTree

  /** No function is called, and no variable read depends on those in `x`. */
  ghost predicate Plain(l: Lang, e: Expr, x: set<string>)
    decreases e
  {
    match e
    case One(t) => PlainTerm(l, t, x)
    case Bin(t, _, rest) => PlainTerm(l, t, x) && Plain(l, rest, x)
  }

  ghost predicate PlainTerm(l: Lang, t: Term, x: set<string>)
    decreases t
  {
    match t
    case Atom(k, s) => Fixed(l, Token(Value(k), s), x)
    case Un(_, t1) => PlainTerm(l, t1, x)
    case Paren(e) => Plain(l, e, x)
    case Call(_, _) => false
  }

  lemma {:induction false} ResolvedSame(l: Lang, e: Expr, a: Env, b: Env, x: set<string>)
    requires Plain(l, e, x) && Agree(a, b, x)
    ensures Resolved(l.ops, a, e) == Resolved(l.ops, b, e)
    decreases e
  {
    hide Agree;
    match e
    case One(t) => ResolvedTermSame(l, t, a, b, x);
    case Bin(t, _, rest) =>
      ResolvedTermSame(l, t, a, b, x);
      ResolvedSame(l, rest, a, b, x);
  }

  lemma {:induction false} ResolvedTermSame(l: Lang, t: Term, a: Env, b: Env, x: set<string>)
    requires PlainTerm(l, t, x) && Agree(a, b, x)
    ensures ResolvedTerm(l.ops, a, t) == ResolvedTerm(l.ops, b, t)
    decreases t
  {
    hide Agree;
    match t
    case Atom(_, _) =>
    case Un(_, t1) => ResolvedTermSame(l, t1, a, b, x);
    case Paren(e) => ResolvedSame(l, e, a, b, x);
  }

  lemma {:induction false} EvalPure(l: Lang, e: Expr, x: set<string>, r: Env, a: Env, b: Env)
    requires Plain(l, e, x)
    ensures var v := Resolved(l.ops, r, e);
            Eval(l.ops, v, a).env == a && Eval(l.ops, v, b) == Valued(Eval(l.ops, v, a).value, b)
    decreases e, 0
  {
    hide Fixed;
    match e
    case One(t) => TermPure(l, t, x, r, a, b);
    case Bin(t, op, rest) =>
      EvalPure(l, rest, x, r, a, b);
      var v := Eval(l.ops, Resolved(l.ops, r, rest), a).value;
      if v.Some? { LeftPure(l, t, x, r, op, v.value, a, b); }
  }

  lemma OperatorsPure(l: Lang, u: UnaryOp, op: BinaryOp, right: TypedText, x: Option<TypedText>, a: Env, b: Env)
    ensures Prefix(l.ops, u, Valued(x, a)).env == a && Combine(l.ops, op, right, Valued(x, a)).env == a
    ensures Prefix(l.ops, u, Valued(x, b)) == Valued(Prefix(l.ops, u, Valued(x, a)).value, b)
    ensures Combine(l.ops, op, right, Valued(x, b)) == Valued(Combine(l.ops, op, right, Valued(x, a)).value, b)
  {
  }

  lemma EvalLeftStep(l: Lang, v: Term, op: BinaryOp, right: TypedText, a: Env)
    ensures EvalLeft(l.ops, v, op, right, a)
         == if v.Un? && v.t.Un? then Prefix(l.ops, v.prefix, EvalLeft(l.ops, v.t, op, right, a))
            else Combine(l.ops, op, right, EvalTerm(l.ops, v, a))
  {
    hide EvalTerm, Prefix, Combine;
  }

  lemma {:induction false} LeftPure(l: Lang, t: Term, x: set<string>, r: Env, op: BinaryOp, right: TypedText, a: Env,
                                    b: Env)
    requires PlainTerm(l, t, x)
    ensures var v := ResolvedTerm(l.ops, r, t);
            && EvalLeft(l.ops, v, op, right, a).env == a
            && EvalLeft(l.ops, v, op, right, b) == Valued(EvalLeft(l.ops, v, op, right, a).value, b)
    decreases t, 1
  {
    hide Fixed, EvalLeft, EvalTerm, Prefix, Combine;
    var v := ResolvedTerm(l.ops, r, t);
    EvalLeftStep(l, v, op, right, a);
    EvalLeftStep(l, v, op, right, b);
    if t.Un? && t.t.Un? {
      LeftPure(l, t.t, x, r, op, right, a, b);
      var w := EvalLeft(l.ops, v.t, op, right, a);
      assert w == Valued(w.value, a);
      OperatorsPure(l, t.prefix, op, right, w.value, a, b);
    } else {
      TermPure(l, t, x, r, a, b);
      var w := EvalTerm(l.ops, v, a);
      assert w == Valued(w.value, a);
      OperatorsPure(l, UnaryPlus, op, right, w.value, a, b);
    }
  }

  lemma {:induction false} TermPure(l: Lang, t: Term, x: set<string>, r: Env, a: Env, b: Env)
    requires PlainTerm(l, t, x)
    ensures var v := ResolvedTerm(l.ops, r, t);
            EvalTerm(l.ops, v, a).env == a && EvalTerm(l.ops, v, b) == Valued(EvalTerm(l.ops, v, a).value, b)
    decreases t, 0
  {
    hide Fixed;
    match t
    case Atom(_, _) =>
    case Un(_, t1) => TermPure(l, t1, x, r, a, b);
    case Paren(e) => EvalPure(l, e, x, r, a, b);
  }

  lemma PlainSteady(l: Lang, e: Expr, x: set<string>)
    requires Plain(l, e, x)
    ensures Steady(l, e, x)
  {
    hide Plain, Eval, Agree;
    forall a: Env ensures Compute(l, e, a).env == a {
      EvalPure(l, e, x, a, a, a);
    }
    forall a: Env, b: Env | Agree(a, b, x)
      ensures Compute(l, e, a).Got? <==> Compute(l, e, b).Got?
      ensures Compute(l, e, a).Got? ==> Compute(l, e, a).text == Compute(l, e, b).text
    {
      ResolvedSame(l, e, a, b, x);
      EvalPure(l, e, x, a, a, b);
    }
  }
}
