/** Reading a program token by token (source/program.c:492-550). Indices count tokens here; module
    ProgramText reads the stored form, whose indices are byte offsets. */
module Programs {
  import opened Tokens

  /** The token read at index `i`: past the end it is the null token, and a `$` variable is
      replaced by its value (source/program.c:495-527). */
  function TokenAt(resolve: (string, Env) -> string, p: seq<Token>, env: Env, i: nat): (t: Token)
  {
    if i >= |p| then NULL_TOKEN
    else if p[i].kind == Value(Variable) then Token(Value(Variable), resolve(p[i].text, env))
    else p[i]
  }

  function RawAt(p: seq<Token>, i: nat): (t: Token)
  {
    if i >= |p| then NULL_TOKEN else p[i]
  }

  /** The index after reading at `i`. */
  function Past(p: seq<Token>, i: nat): nat
  {
    if i >= |p| then i else i + 1
  }
}
