/** Message texts as trees: items, lists, and FOR loops that repeat elements. What such a text means
    is a sequence of items, with every loop variable bound only inside its own loop. */
module SmlTree {
  import opened Tokens
  import opened ExpressionTree
  import opened Flow
  import opened Structured
  import opened FlowScans
  import opened FlowLoops
  import opened Bytes
  import opened Machine
  import opened SecsItems
  import opened SecsTree

  datatype Forest = Empty | Elem(first: Element, rest: Forest)
  datatype Element =
    | LineEnds(end: bool, text: string)
    | Item(word: string, data: seq<Token>)
    | List(word: string, elems: Forest)
    | Repeat(v: string, from: Expr, to: Expr, step: Option<Expr>, body: Forest)

  function Angle(op: BinaryOp): Token { Sign(Binary(op)) }
  function Name(s: string): Token { Token(Value(Identifier), s) }

  function ForestToks(es: Forest): seq<Token> {
    match es
    case Empty => []
    case Elem(x, rest) => ElementToks(x) + ForestToks(rest)
  }

  function ElementToks(x: Element): seq<Token> {
    match x
    case LineEnds(end, text) => [Token(if end then EndOfLine else LineNumber, text)]
    case Item(word, data) => [Angle(LessThan)] + ([Name(word)] + (data + [Angle(GreaterThan)]))
    case List(word, elems) => [Angle(LessThan)] + ([Name(word)] + (ForestToks(elems) + [Angle(GreaterThan)]))
    case Repeat(v, e1, e2, e3, body) =>
      [Sign(For)] + (HeadToks(v, e1, e2, e3) + (ForestToks(body) + NextToks(v)))
  }

  // ---------------------------------------------------------------- scope

  /** The same variables, but for those in `x`. */
  ghost predicate Agree(a: Env, b: Env, x: set<string>) {
    forall n :: n !in x ==> (n in a <==> n in b) && (n in a ==> a[n] == b[n])
  }

  /** A bound that changes no variable and does not depend on those in `x`. */
  ghost predicate Steady(l: Lang, e: Expr, x: set<string>) {
    && (forall a: Env {:trigger Compute(l, e, a)} :: Compute(l, e, a).env == a)
    && (forall a: Env, b: Env {:trigger Agree(a, b, x)} :: Agree(a, b, x) ==>
          && (Compute(l, e, a).Got? <==> Compute(l, e, b).Got?)
          && (Compute(l, e, a).Got? ==> Compute(l, e, a).text == Compute(l, e, b).text))
  }

  /** A value whose text does not depend on the variables in `x`. */
  ghost predicate Fixed(l: Lang, t: Token, x: set<string>) {
    t.kind == Value(Variable) ==>
      forall a: Env, b: Env {:trigger Agree(a, b, x)} ::
        Agree(a, b, x) ==> l.ops.resolve(t.text, a) == l.ops.resolve(t.text, b)
  }

  /** Item data: values, each perhaps behind a minus. */
  predicate DataTokens(data: seq<Token>) {
    && (forall k :: 0 <= k < |data| ==> data[k].kind.Value? || data[k] == Angle(Minus))
    && (data != [] ==> data[|data| - 1].kind.Value?)
  }

  /** Bounds and data may read variables that no loop sets, and those of the loops around them:
      `vars` are the variables of all loops, `bound` those of the loops around `es`. The word behind
      a loop's head is no operator, which would continue its last bound. */
  ghost predicate Scoped(l: Lang, vars: set<string>, bound: set<string>, es: Forest)
    decreases es
  {
    match es
    case Empty => true
    case Elem(x, rest) => ScopedElement(l, vars, bound, x) && Scoped(l, vars, bound, rest)
  }

  ghost predicate ScopedElement(l: Lang, vars: set<string>, bound: set<string>, x: Element)
    decreases x
  {
    match x
    case LineEnds(_, _) => true
    case Item(word, data) =>
      WordOf(word).ItemWord? && DataTokens(data) && forall k :: 0 <= k < |data| ==> Fixed(l, data[k], vars - bound)
    case List(word, elems) => WordOf(word).ListWord? && Scoped(l, vars, bound, elems)
    case Repeat(v, e1, e2, e3, body) =>
      var inner := bound + {v};
      && v in vars && v !in bound
      && Steady(l, e1, vars - bound) && Steady(l, e2, vars - inner) && (e3.Some? ==> Steady(l, e3.value, vars - inner))
      && StartsPlain(body) && Scoped(l, vars, inner, body)
  }

  predicate StartsPlain(es: Forest) {
    es.Empty? || es.first.LineEnds? || es.first.Repeat?
  }

  // ---------------------------------------------------------------- meaning

  function Both2(a: Option<seq<Node>>, b: Option<seq<Node>>): Option<seq<Node>> {
    if a.None? || b.None? then None else Some(a.value + b.value)
  }

  /** The items a text stands for, if every bound and every datum can be computed and no loop takes
      more than `k` rounds. */
  function Elements(l: Lang, fl: Floats, k: nat, es: Forest, env: Env): Option<seq<Node>>
    decreases es, 0
  {
    match es
    case Empty => Some([])
    case Elem(x, rest) => Both2(ElementNodes(l, fl, k, x, env), Elements(l, fl, k, rest, env))
  }

  function ElementNodes(l: Lang, fl: Floats, k: nat, x: Element, env: Env): Option<seq<Node>>
    decreases x, 1
  {
    match x
    case LineEnds(_, _) => Some([])
    case Item(word, data) =>
      (match WordOf(word)
       case ItemWord(f) =>
         (match ItemValue(fl, f, Texts(l, f, data, env))
          case Some(bytes) => Some([Leaf(f, bytes)])
          case None => None)
       case _ => None)
    case List(_, elems) =>
      (match Elements(l, fl, k, elems, env)
       case Some(children) => Some([Branch(children)])
       case None => None)
    case Repeat(v, e1, e2, e3, body) =>
      (match LoopValues(l, k, v, e1, e2, e3, env)
       case Some(texts) => Rounds(l, fl, k, v, texts, body, env)
       case None => None)
  }

  function Rounds(l: Lang, fl: Floats, k: nat, v: string, texts: seq<string>, body: Forest, env: Env): Option<seq<Node>>
    decreases body, 1 + |texts|
  {
    if texts == [] then Some([])
    else Both2(Elements(l, fl, k, body, env[v := texts[0]]), Rounds(l, fl, k, v, texts[1..], body, env))
  }

  /** The texts a loop variable takes: the first is its first bound as written. */
  function LoopValues(l: Lang, k: nat, v: string, e1: Expr, e2: Expr, e3: Option<Expr>, env: Env): Option<seq<string>> {
    match Enter(l, v, e1, e2, e3, env)
    case Entry(t1, t2, t3, _) =>
      if l.num(t1) > l.num(t2) then Some([]) else Counts(l, k, t1, l.num(t2), l.num(t3))
    case _ => None
  }

  function Counts(l: Lang, k: nat, t: string, y: int, z: int): Option<seq<string>> {
    if k == 0 then None
    else
      var x := Wrap32(l.num(t) + z);
      if x > y then Some([t])
      else
        match Counts(l, k - 1, l.show(x), y, z)
        case Some(more) => Some([t] + more)
        case None => None
  }

  function TokenText(l: Lang, t: Token, env: Env): string {
    if t.kind == Value(Variable) then l.ops.resolve(t.text, env) else t.text
  }

  function Texts(l: Lang, f: Format, data: seq<Token>, env: Env): seq<string>
    decreases |data|
  {
    if data == [] then []
    else if (f.Signed? || f.Float?) && data[0] == Angle(Minus) && |data| > 1 then
      ["-" + TokenText(l, data[1], env)] + Texts(l, f, data[2..], env)
    else [TokenText(l, data[0], env)] + Texts(l, f, data[1..], env)
  }

  function ItemValue(fl: Floats, f: Format, texts: seq<string>): Option<seq<byte>>
    decreases |texts|
  {
    if texts == [] then Some([])
    else
      var c := Convert(fl, f, texts[0]);
      var more := ItemValue(fl, f, texts[1..]);
      if !c.ok || more.None? then None else Some(c.bytes + more.value)
  }
}
