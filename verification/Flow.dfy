/** Control flow over the flat token stream: source/execute.c, if.c, while.c, for.c, break.c,
    continue.c and let.c as one step function. There is no syntax tree: commands scan forward with
    nest counters and jump to saved indices kept in numbered variables. */
module Flow {
  import opened Tokens
  import opened Programs
  import opened Expression
  import opened Machine

  /** The operators of the language and its readings of a text: `atoi(..) != 0`, `sscanf("%d")`,
      `sprintf("%d")`. */
  datatype Lang = Lang(ops: Ops, truth: string -> bool, num: string -> int, show: int -> string)

  /** The interpreter's own variables WHILE.n, FOR.n, TO.n and STEP.n. */
  datatype ScVar = WhileVar(n: int) | ForVar(n: int) | ToVar(n: int) | StepVar(n: int)
  datatype ScVal = Index(i: nat) | Text(s: string)
  type ScVars = map<ScVar, ScVal>

  /** The cursor, the user variables, `while_nest`, `for_nest` and the numbered variables. */
  datatype St = St(idx: nat, env: Env, wn: int, fn: int, sc: ScVars)

  /** What a command returns: zero, an error, or it never returns to `execute`. */
  datatype Ret = Fine | Bad | Exit | Hung
  datatype CmdOut = CmdOut(st: St, ret: Ret)

  datatype Why = Finished | Aborted | Exited | Diverged | ErrorClause
  datatype Config = Running(st: St) | Halted(st: St, why: Why)

  // ---------------------------------------------------------------- forward scans

  /** The scanning loops, one constructor each, with their counters. */
  datatype Scanner =
    | IfScan(nest: nat)                  // cmd_if: to ELSE, ELSE_IF or END_IF
    | EndIfScan(nest: nat)               // cmd_else, cmd_else_if: to END_IF
    | WhileScan(nest: nat)               // cmd_while: to END_WHILE
    | LoopScan(fors: nat, whiles: nat)   // cmd_continue, cmd_break_loop: to NEXT or END_WHILE
    | ForScan(name: string, flag: bool)  // cmd_for: to the name behind NEXT

  datatype Scan = Go(s: Scanner) | Stop

  function ScanToken(s: Scanner, t: Token): Scan
  {
    match s
    case IfScan(n) =>
      if t.kind == If then Go(IfScan(n + 1))
      else if t.kind == Else || t.kind == ElseIf then (if n == 0 then Stop else Go(s))
      else if t.kind == EndIf then (if n == 0 then Stop else Go(IfScan(n - 1)))
      else Go(s)
    case EndIfScan(n) =>
      if t.kind == If then Go(EndIfScan(n + 1))
      else if t.kind == EndIf then (if n == 0 then Stop else Go(EndIfScan(n - 1)))
      else Go(s)
    case WhileScan(n) =>
      if t.kind == While then Go(WhileScan(n + 1))
      else if t.kind == EndWhile then (if n == 0 then Stop else Go(WhileScan(n - 1)))
      else Go(s)
    case LoopScan(f, w) =>
      if EndsScript(t.kind) then Stop
      else if t.kind == For then Go(LoopScan(f + 1, w))
      else if t.kind == While then Go(LoopScan(f, w + 1))
      else if t.kind == Next then (if f == 0 then Stop else Go(LoopScan(f - 1, w)))
      else if t.kind == EndWhile then (if w == 0 then Stop else Go(LoopScan(f, w - 1)))
      else Go(s)
    case ForScan(name, flag) =>
      if flag then (if t.text == name then Stop else Go(ForScan(name, false)))
      else Go(ForScan(name, t.kind == Next))
  }

  predicate EndsScript(k: Kind) {
    k == After || k == Begin || k == End || k == Label
  }

  /** The index of the token a scan stops at, or the end of the program. */
  function ScanFrom(p: seq<Token>, i: nat, s: Scanner): (j: nat)
    requires i <= |p|
    ensures i <= j <= |p|
    decreases |p| - i
  {
    if i == |p| then i
    else
      match ScanToken(s, p[i])
      case Stop => i
      case Go(s1) => ScanFrom(p, i + 1, s1)
  }

  lemma ScanStep(p: seq<Token>, i: nat, s: Scanner)
    requires i <= |p|
    ensures i == |p| ==> ScanFrom(p, i, s) == i
    ensures i < |p| && ScanToken(s, p[i]) == Stop ==> ScanFrom(p, i, s) == i
    ensures i < |p| && ScanToken(s, p[i]).Go? ==> ScanFrom(p, i, s) == ScanFrom(p, i + 1, ScanToken(s, p[i]).s)
  {
  }

  /** The scan of `cmd_while`. */
  lemma WhileScanStep(p: seq<Token>, i: nat, n: nat)
    requires i <= |p|
    ensures ScanFrom(p, i, WhileScan(n)) ==
              if i == |p| then i
              else if p[i].kind == While then ScanFrom(p, i + 1, WhileScan(n + 1))
              else if p[i].kind == EndWhile then (if n == 0 then i else ScanFrom(p, i + 1, WhileScan(n - 1)))
              else ScanFrom(p, i + 1, WhileScan(n))
  {
    hide ScanFrom;
    ScanStep(p, i, WhileScan(n));
  }

  // ---------------------------------------------------------------- commands

  function RetOf(s: Status): Ret {
    match s
    case Ok => Fine
    case Err => Bad
    case Fatal => Exit
    case Hang => Hung
  }

  function Expr(l: Lang, p: seq<Token>, st: St): (r: Outcome)
    requires st.idx <= |p|
    ensures st.idx <= r.idx <= |p|
  {
    Evaluate(l.ops, p, st.env, st.idx)
  }

  function Moved(st: St, o: Outcome): St { st.(idx := o.idx, env := o.env) }

  /** source/if.c:37-114. The result of the recursive call on ELSE_IF is dropped. */
  function CmdIf(l: Lang, p: seq<Token>, st: St): (r: CmdOut)
    requires st.idx <= |p|
    ensures r.st.idx <= |p|
    decreases |p| - st.idx
  {
    var o := Expr(l, p, st);
    var st1 := Moved(st, o);
    if !o.status.Ok? then CmdOut(st1, RetOf(o.status))
    else if l.truth(o.token) then CmdOut(st1, Fine)
    else
      var j := ScanFrom(p, o.idx, IfScan(0));
      if j == |p| then CmdOut(st1.(idx := j), Bad)
      else if p[j].kind == ElseIf then
        var r := CmdIf(l, p, st1.(idx := j + 1));
        if r.ret == Bad then CmdOut(r.st, Fine) else r
      else CmdOut(st1.(idx := j + 1), Fine)
  }

  /** source/if.c:124-160 and 169-210: a taken branch runs into ELSE or ELSE_IF. */
  function CmdElse(p: seq<Token>, st: St): (r: CmdOut)
    requires st.idx <= |p|
    ensures r.st.idx <= |p|
  {
    CmdOut(st.(idx := Past(p, ScanFrom(p, st.idx, EndIfScan(0)))), Fine)
  }

  /** source/while.c:40-123; `at` is the index of the WHILE token itself. */
  function CmdWhile(l: Lang, p: seq<Token>, at: nat, st: St): (r: CmdOut)
    requires st.idx <= |p|
    ensures r.st.idx <= |p|
  {
    var st0 := st.(wn := st.wn + 1, sc := st.sc[WhileVar(st.wn + 1) := Index(at)]);
    var o := Expr(l, p, st0);
    var st1 := Moved(st0, o);
    if !o.status.Ok? then CmdOut(st1, RetOf(o.status))
    else if l.truth(o.token) then CmdOut(st1, Fine)
    else
      var j := ScanFrom(p, o.idx, WhileScan(0));
      if j == |p| then CmdOut(st1.(idx := j), Bad)
      else CmdOut(st1.(idx := j + 1, wn := st1.wn - 1), Fine)
  }

  /** source/while.c:124-169 */
  function CmdEndWhile(p: seq<Token>, st: St): (r: CmdOut)
    requires st.idx <= |p|
    ensures r.st.idx <= |p|
  {
    if st.wn < 1 then CmdOut(st, Fine)
    else if WhileVar(st.wn) !in st.sc || !st.sc[WhileVar(st.wn)].Index? then CmdOut(st, Bad)
    else
      // A saved index beyond the program reads as its end.
      CmdOut(st.(idx := Clip(p, st.sc[WhileVar(st.wn)].i), wn := st.wn - 1), Fine)
  }

  function Clip(p: seq<Token>, i: nat): (j: nat)
    ensures j <= |p| && (i <= |p| ==> j == i)
  {
    if i <= |p| then i else |p|
  }

  /** source/for.c:38-188 */
  function CmdFor(l: Lang, p: seq<Token>, st: St): (r: CmdOut)
    requires st.idx <= |p|
    ensures r.st.idx <= |p|
  {
    var st0 := st.(fn := st.fn + 1, idx := Past(p, st.idx));
    var name := TokenAt(l.ops.resolve, p, st.env, st.idx);
    if name.kind != Value(Identifier) then CmdOut(st0, Bad)
    else
      var st1 := st0.(idx := Past(p, st0.idx));
      if TokenAt(l.ops.resolve, p, st.env, st0.idx).kind != Assign then CmdOut(st1, Bad)
      else
        var o := Expr(l, p, st1);
        if !o.status.Ok? then CmdOut(Moved(st1, o), RetOf(o.status))
        else ForTo(l, p, name.text, l.num(o.token), Moved(st1, o).(env := o.env[name.text := o.token]))
  }

  /** source/for.c:92-145, from the TO on. */
  function ForTo(l: Lang, p: seq<Token>, name: string, x: int, st: St): (r: CmdOut)
    requires st.idx <= |p|
    ensures r.st.idx <= |p|
  {
    var st0 := st.(idx := Past(p, st.idx));
    if TokenAt(l.ops.resolve, p, st.env, st.idx).kind != To then SkipFor(p, name, x, 0, st0, Bad)
    else
      var o := Expr(l, p, st0);
      var st1 := Moved(st0, o);
      if o.status.Err? then SkipFor(p, name, x, 0, st1, Bad)
      else if !o.status.Ok? then CmdOut(st1, RetOf(o.status))
      else ForStep(l, p, name, x, l.num(o.token), st1.(sc := st1.sc[ToVar(st1.fn) := Text(o.token)]))
  }

  function ForStep(l: Lang, p: seq<Token>, name: string, x: int, y: int, st: St): (r: CmdOut)
    requires st.idx <= |p|
    ensures r.st.idx <= |p|
  {
    if TokenAt(l.ops.resolve, p, st.env, st.idx).kind != Step then
      SkipFor(p, name, x, y, ForSaved(st, "1"), Fine)
    else
      var o := Expr(l, p, st.(idx := Past(p, st.idx)));
      var st1 := Moved(st, o);
      if o.status.Fatal? || o.status.Hang? then CmdOut(st1, RetOf(o.status))
      else SkipFor(p, name, x, y, ForSaved(st1, o.token), RetOf(o.status))
  }

  function ForSaved(st: St, step: string): St {
    st.(sc := st.sc[StepVar(st.fn) := Text(step)][ForVar(st.fn) := Index(st.idx)])
  }

  /** source/for.c:147-188: an empty range is skipped up to NEXT and the loop's name. */
  function SkipFor(p: seq<Token>, name: string, x: int, y: int, st: St, ret: Ret): (r: CmdOut)
    requires st.idx <= |p|
    ensures r.st.idx <= |p|
  {
    if x <= y then CmdOut(st, ret)
    else
      var j := ScanFrom(p, st.idx, ForScan(name, false));
      if j == |p| then CmdOut(st.(fn := st.fn - 1), Bad)
      else CmdOut(st.(fn := st.fn - 1, idx := j + 1), ret)
  }

  /** source/for.c:204-294. A missing TO, STEP or FOR variable exits the process. */
  function CmdNext(l: Lang, p: seq<Token>, st: St): (r: CmdOut)
    requires st.idx <= |p|
    ensures r.st.idx <= |p|
  {
    var name := TokenAt(l.ops.resolve, p, st.env, st.idx).text;
    var st0 := st.(idx := Past(p, st.idx));
    if name !in st.env then CmdOut(st0, Bad)
    else if !HasText(st.sc, ToVar(st.fn)) || !HasText(st.sc, StepVar(st.fn)) then CmdOut(st0, Exit)
    else
      var x := Wrap32(l.num(st.env[name]) + l.num(st.sc[StepVar(st.fn)].s));
      if x > l.num(st.sc[ToVar(st.fn)].s) then CmdOut(st0.(fn := st.fn - 1), Fine)
      else
        var st1 := st0.(env := st.env[name := l.show(x)]);
        if ForVar(st.fn) !in st.sc || !st.sc[ForVar(st.fn)].Index? then CmdOut(st1, Exit)
        else CmdOut(st1.(idx := Clip(p, st.sc[ForVar(st.fn)].i)), Fine)
  }

  predicate HasText(sc: ScVars, v: ScVar) { v in sc && sc[v].Text? }

  /** source/continue.c:47-97 */
  function CmdContinue(p: seq<Token>, st: St): (r: CmdOut)
    requires st.idx <= |p|
    ensures r.st.idx <= |p|
  {
    var j := ScanFrom(p, st.idx, LoopScan(0, 0));
    CmdOut(st.(idx := if j < |p| && EndsScript(p[j].kind) then j + 1 else j), Fine)
  }

  /** source/break.c:48-103. Out of a WHILE the nest is lowered; out of a FOR it is not. */
  function CmdBreak(p: seq<Token>, st: St): (r: CmdOut)
    requires st.idx <= |p|
    ensures r.st.idx <= |p|
  {
    var j := ScanFrom(p, st.idx, LoopScan(0, 0));
    if j == |p| || EndsScript(p[j].kind) then CmdOut(st.(idx := j), Fine)
    else if p[j].kind == Next then CmdOut(st.(idx := Past(p, j + 1)), Fine)
    else CmdOut(st.(idx := j + 1, wn := st.wn - 1), Fine)
  }

  /** source/let.c:71-124 */
  function CmdLet(l: Lang, p: seq<Token>, st: St): (r: CmdOut)
    requires st.idx <= |p|
    ensures r.st.idx <= |p|
  {
    var name := TokenAt(l.ops.resolve, p, st.env, st.idx);
    var st0 := st.(idx := Past(p, st.idx));
    if name.kind != Value(Identifier) && name.kind != Value(Variable) then CmdOut(st0, Bad)
    else
      var st1 := st0.(idx := Past(p, st0.idx));
      if TokenAt(l.ops.resolve, p, st.env, st0.idx).kind != Assign then CmdOut(st1, Bad)
      else
        var o := Expr(l, p, st1);
        if !o.status.Ok? then CmdOut(Moved(st1, o), RetOf(o.status))
        else CmdOut(Moved(st1, o).(env := o.env[name.text := o.token]), Fine)
  }

  /** A command given as an expression: source/execute.c:277-281. */
  function CmdPerform(l: Lang, p: seq<Token>, at: nat, st: St): (r: CmdOut)
    requires at <= |p|
    ensures r.st.idx <= |p|
  {
    var o := Expr(l, p, st.(idx := at));
    CmdOut(Moved(st, o), RetOf(o.status))
  }

  // ---------------------------------------------------------------- the dispatch loop

  predicate Silent(k: Kind) {
    k == LineNumber || k == EndOfLine || k == EndIf || k == Then || k == NoError
  }

  predicate EndsRun(k: Kind) {
    k == NullToken || k == Break || EndsScript(k)
  }

  /** The command a token selects: source/execute.c:150-290. */
  function Dispatch(l: Lang, p: seq<Token>, at: nat, k: Kind, st: St): (r: CmdOut)
    requires at < |p| && st.idx <= |p|
    ensures r.st.idx <= |p|
  {
    match k
    case BreakLoop => CmdBreak(p, st)
    case Continue => CmdContinue(p, st)
    case Let => CmdLet(l, p, st)
    case Else => CmdElse(p, st)
    case ElseIf => CmdElse(p, st)
    case EndWhile => CmdEndWhile(p, st)
    case For => CmdFor(l, p, st)
    case If => CmdIf(l, p, st)
    case Next => CmdNext(l, p, st)
    case While => CmdWhile(l, p, at, st)
    case Function(_) => CmdPerform(l, p, at, st)
    case _ => CmdOut(st, Bad)
  }

  /** One round of `execute`: source/execute.c:75-359. */
  function Turn(l: Lang, p: seq<Token>, st: St): (c: Config)
    requires st.idx <= |p|
    ensures c.st.idx <= |p|
  {
    var k := TokenAt(l.ops.resolve, p, st.env, st.idx).kind;
    var st0 := st.(idx := Past(p, st.idx));
    if EndsRun(k) then Halted(st0, Finished)
    else if Silent(k) then Running(st0)
    else if k == Error then Running(st0.(idx := Past(p, Past(p, st0.idx))))
    else Settle(p, Dispatch(l, p, st.idx, k, st0))
  }

  /** What `execute` makes of a command's return. */
  function Settle(p: seq<Token>, r: CmdOut): (c: Config)
    requires r.st.idx <= |p|
    ensures c.st.idx <= |p|
  {
    match r.ret
    case Fine => Running(r.st)
    case Bad => OnError(p, r.st)
    case Exit => Halted(r.st, Exited)
    case Hung => Halted(r.st, Diverged)
  }

  /** source/execute.c:316-352 and 369-435 without `error=label` clauses and the default error label. */
  function OnError(p: seq<Token>, st: St): (c: Config)
    requires st.idx <= |p|
    ensures c.st.idx <= |p|
  {
    var k := RawAt(p, st.idx).kind;
    if k == NoError then Running(st.(idx := Past(p, st.idx)))
    else if k == Error then Halted(st, ErrorClause)
    else Halted(st.(wn := 0, fn := 0), Aborted)
  }

  /** `n` rounds of `execute`. */
  function Run(l: Lang, p: seq<Token>, n: nat, c: Config): (r: Config)
    requires c.st.idx <= |p|
    ensures r.st.idx <= |p|
  {
    if n == 0 || c.Halted? then c else Run(l, p, n - 1, Turn(l, p, c.st))
  }

  lemma {:induction false} RunAdd(l: Lang, p: seq<Token>, m: nat, n: nat, c: Config)
    requires c.st.idx <= |p|
    ensures Run(l, p, m + n, c) == Run(l, p, n, Run(l, p, m, c))
    decreases m
  {
    hide Turn;
    if m > 0 && c.Running? {
      RunAdd(l, p, m - 1, n, Turn(l, p, c.st));
    }
  }
}
