/** Program tokens as the interpreter sees them (headers/tokens.h, source/tokens.c). */
module Tokens {

  datatype Option<+T> = None | Some(value: T)

  /** The tokens that stand for a value. */
  datatype ValueType = Variable | Identifier | Str | Constant | Number

  /** The operators that combine two operands in source/expression.c:511-589. */
  datatype BinaryOp =
    | Plus | Minus | Mult | Divide | Period | Colon
    | LogicalAnd | LogicalOr | BitwiseAnd | BitwiseOr | BitwiseXor
    | GreaterThan | LessThan | Equal | NotEqual | LessThanEqual | GreaterThanEqual
    | StrEqual | StrNotEqual

  datatype UnaryOp = UnaryMinus | UnaryPlus | OnesComplement

  /** The token types of headers/tokens.h. All built-in functions share `Function`, and the
      commands this model does not interpret share `Other`. */
  datatype Kind =
    | NullToken | EndOfLine | LineNumber
    | Value(v: ValueType)
    | Binary(op: BinaryOp)
    | Unary(u: UnaryOp)
    | OpenParen | CloseParen | Comma | FunctionEnd | Function(id: nat)
    | After | Begin | Break | BreakLoop | Continue | Else | ElseIf | End | EndIf | EndWhile
    | Error | For | If | Label | Let | Next | NoError | Step | Then | To | While | Assign
    | Other(id: nat)

  /** A token: its type and its text. Tokens of a fixed spelling carry the empty text. */
  datatype Token = Token(kind: Kind, text: string)

  const NULL_TOKEN := Token(NullToken, "")

  /** User variables by name. */
  type Env = map<string, string>

  /** The test made after every operand: source/tokens.c:232-265. */
  predicate IsOperator(k: Kind) {
    k.Binary? || k.Unary?
  }

  /** The tokens `s` stand in `p` at index `i`. */
  predicate At(p: seq<Token>, i: nat, s: seq<Token>) {
    i + |s| <= |p| && forall k :: 0 <= k < |s| ==> p[i + k] == s[k]
  }

  lemma AtSplit(p: seq<Token>, i: nat, a: seq<Token>, b: seq<Token>)
    requires At(p, i, a + b)
    ensures At(p, i, a) && At(p, i + |a|, b) && i + |a| + |b| <= |p|
  {
    forall k | 0 <= k < |a| ensures p[i + k] == a[k] {
      assert (a + b)[k] == a[k];
    }
    forall k | 0 <= k < |b| ensures p[i + |a| + k] == b[k] {
      assert (a + b)[|a| + k] == b[k];
    }
  }

  lemma AtHead(p: seq<Token>, i: nat, t: Token, b: seq<Token>)
    requires At(p, i, [t] + b)
    ensures i < |p| && p[i] == t && At(p, i + 1, b)
  {
    AtSplit(p, i, [t], b);
    assert p[i + 0] == [t][0];
  }

  lemma AtBound(p: seq<Token>, i: nat, s: seq<Token>)
    requires At(p, i, s)
    ensures i + |s| <= |p|
  {
  }
}
