/** What an expression means: a tree, its tokens, and the value the language gives it.

    An expression is a chain of operands that associates to the right, without precedence
    levels: `a - b - c` is `a - (b - c)`. */
module ExpressionTree {
  import opened Tokens
  import opened Expression

  datatype Expr = One(t: Term) | Bin(left: Term, op: BinaryOp, rest: Expr)
  datatype Term =
    | Atom(v: ValueType, text: string)
    | Un(prefix: UnaryOp, t: Term)
    | Paren(e: Expr)
    | Call(fn: nat, args: Arguments)
  datatype Arguments = NoArgs | Arg(e: Expr, more: Arguments)

  function Sign(k: Kind): Token { Token(k, "") }

  /** How a prefix is written in the program. */
  function Written(u: UnaryOp): Kind {
    match u
    case UnaryMinus => Binary(Minus)
    case UnaryPlus => Binary(Plus)
    case OnesComplement => Unary(OnesComplement)
  }

  // ---------------------------------------------------------------- program tokens

  function ExprToks(e: Expr): seq<Token> {
    match e
    case One(t) => TermToks(t)
    case Bin(t, op, rest) => TermToks(t) + ([Sign(Binary(op))] + ExprToks(rest))
  }

  function TermToks(t: Term): seq<Token> {
    match t
    case Atom(k, s) => [Token(Value(k), s)]
    case Un(u, t1) => [Sign(Written(u))] + TermToks(t1)
    case Paren(e) => [Sign(OpenParen)] + (ExprToks(e) + [Sign(CloseParen)])
    case Call(f, args) => [Sign(Function(f))] + ([Sign(OpenParen)] + ArgToks(args))
  }

  function ArgToks(a: Arguments): seq<Token> {
    match a
    case NoArgs => [Sign(CloseParen)]
    case Arg(e, more) => ExprToks(e) + MoreToks(more)
  }

  function MoreToks(a: Arguments): seq<Token> {
    match a
    case NoArgs => [Sign(CloseParen)]
    case Arg(e, more) => [Sign(Comma)] + (ExprToks(e) + MoreToks(more))
  }

  // ---------------------------------------------------------------- queue contents

  function ExprQueue(e: Expr): (q: seq<Token>)
    ensures q != []
  {
    match e
    case One(t) => TermQueue(t)
    case Bin(t, op, rest) => TermQueue(t) + ([Sign(Binary(op))] + ExprQueue(rest))
  }

  function TermQueue(t: Term): (q: seq<Token>)
    ensures q != []
  {
    match t
    case Atom(k, s) => [Token(Value(k), s)]
    case Un(u, t1) => [Sign(Unary(u))] + TermQueue(t1)
    case Paren(e) => [Sign(OpenParen)] + (ExprQueue(e) + [Sign(CloseParen)])
    case Call(f, args) => [Sign(Function(f))] + (ArgQueue(args) + [Sign(FunctionEnd)])
  }

  function ArgQueue(a: Arguments): seq<Token> {
    match a
    case NoArgs => []
    case Arg(e, more) => ExprQueue(e) + MoreQueue(more)
  }

  function MoreQueue(a: Arguments): seq<Token> {
    match a
    case NoArgs => []
    case Arg(e, more) => [Sign(Comma)] + (ExprQueue(e) + MoreQueue(more))
  }

  // ---------------------------------------------------------------- variables replaced

  /** The tree with every `$` variable replaced by its value before anything is computed. */
  function Resolved(ops: Ops, env: Env, e: Expr): Expr {
    match e
    case One(t) => One(ResolvedTerm(ops, env, t))
    case Bin(t, op, rest) => Bin(ResolvedTerm(ops, env, t), op, Resolved(ops, env, rest))
  }

  function ResolvedTerm(ops: Ops, env: Env, t: Term): Term {
    match t
    case Atom(k, s) => if k == Variable then Atom(k, ops.resolve(s, env)) else t
    case Un(u, t1) => Un(u, ResolvedTerm(ops, env, t1))
    case Paren(e) => Paren(Resolved(ops, env, e))
    case Call(f, args) => Call(f, ResolvedArgs(ops, env, args))
  }

  function ResolvedArgs(ops: Ops, env: Env, a: Arguments): Arguments {
    match a
    case NoArgs => NoArgs
    case Arg(e, more) => Arg(Resolved(ops, env, e), ResolvedArgs(ops, env, more))
  }

  // ---------------------------------------------------------------- values

  /** A value with the type it is queued under. */
  datatype TypedText = TypedText(v: ValueType, text: string)

  /** A value (or a failure) and the variables afterwards, since functions may write them. */
  datatype Valued = Valued(value: Option<TypedText>, env: Env)

  function Prefix(ops: Ops, u: UnaryOp, x: Valued): Valued {
    if x.value.None? || u == UnaryPlus then x
    else
      match ops.unary(u, x.value.value.text)
      case None => Valued(None, x.env)
      case Some(s) => Valued(Some(TypedText(x.value.value.v, s)), x.env)
  }

  function Combine(ops: Ops, op: BinaryOp, right: TypedText, left: Valued): Valued {
    if left.value.None? then left
    else
      match ops.binary(op, right.text, left.value.value.text)
      case None => Valued(None, left.env)
      case Some(s) => Valued(Some(TypedText(right.v, s)), left.env)
  }

  /** The value of an expression: the rest of the chain first, then the operand on its left. */
  function Eval(ops: Ops, e: Expr, env: Env): Valued
    decreases e, 0
  {
    match e
    case One(t) => EvalTerm(ops, t, env)
    case Bin(t, op, rest) =>
      var r := Eval(ops, rest, env);
      if r.value.None? then r else EvalLeft(ops, t, op, r.value.value, r.env)
  }

  /** An operand with an operator behind it: only its innermost prefix belongs to the operand,
      the others apply to the value of the operator (source/expression.c:480-509). */
  function EvalLeft(ops: Ops, t: Term, op: BinaryOp, right: TypedText, env: Env): Valued
    decreases t, 1
  {
    if t.Un? && t.t.Un? then Prefix(ops, t.prefix, EvalLeft(ops, t.t, op, right, env))
    else Combine(ops, op, right, EvalTerm(ops, t, env))
  }

  function EvalTerm(ops: Ops, t: Term, env: Env): Valued
    decreases t, 0
  {
    match t
    case Atom(k, s) => Valued(Some(TypedText(k, s)), env)
    case Un(u, t1) => Prefix(ops, u, EvalTerm(ops, t1, env))
    case Paren(e) => Eval(ops, e, env)
    case Call(f, args) => Apply(ops, f, EvalArgs(ops, args, env))
  }

  /** Argument values, the last argument first; a fourth is an error once it has been computed. */
  datatype Slots = Slots(ok: bool, texts: seq<string>, env: Env)

  function EvalArgs(ops: Ops, a: Arguments, env: Env): (r: Slots)
    ensures r.ok ==> |r.texts| <= 3
    decreases a, 0
  {
    match a
    case NoArgs => Slots(true, [], env)
    case Arg(e, more) =>
      var r := EvalArgs(ops, more, env);
      if !r.ok then r else
      var v := Eval(ops, e, r.env);
      if v.value.None? || |r.texts| > 2 then Slots(false, [], v.env)
      else Slots(true, r.texts + [v.value.value.text], v.env)
  }

  function Slot(s: seq<string>, k: nat): string {
    if k < |s| then s[k] else ""
  }

  function Apply(ops: Ops, f: nat, s: Slots): Valued {
    if !s.ok then Valued(None, s.env)
    else
      match ops.call(f, if s.texts == [] then 0 else |s.texts| - 1,
                     Slot(s.texts, 0), Slot(s.texts, 1), Slot(s.texts, 2), s.env)
      case Failed(e) => Valued(None, e)
      case Returned(k, text, e) => Valued(Some(TypedText(k.AsValue(), text)), e)
  }
}
