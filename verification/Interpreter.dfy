/** The imperative form of source/execute.c and of the commands it calls, on the stored bytes of a
    program: the cursor and the indices kept in variables are byte offsets. `Valid` says that they are
    the offsets of tokens, and every method is proved against its function in Flow, whose indices
    count tokens; the loops are the scanning loops of the source. */
module Interpreters {
  import opened Tokens
  import opened Programs
  import opened Expression
  import opened Evaluators
  import opened Flow
  import opened FlowIndices
  import opened Bytes
  import opened Machine
  import opened ProgramText

  class Interpreter {
    const l: Lang
    const program: StoredProgram
    const vars: Variables
    const evaluator: Evaluator
    var whileNest: int
    var forNest: int
    var sc: ScVars
    ghost var marks: ScVars

    ghost predicate Valid()
      reads this`sc, this`marks, program, evaluator
    {
      && evaluator.program == program && evaluator.vars == vars && evaluator.ops == l.ops && evaluator.Valid()
      && SavedInside(program.tokens, marks) && sc == OffsetsOf(program.codes, program.tokens, marks)
    }

    /** The state by tokens. */
    ghost function State(): St
      reads this, program, vars
    {
      St(program.at, vars.env, whileNest, forNest, marks)
    }

    /** The state as it is. */
    ghost function Stored(): St
      reads this, program, vars
    {
      St(program.idx, vars.env, whileNest, forNest, sc)
    }

    constructor (l: Lang, program: StoredProgram, vars: Variables)
      requires program.Valid() && program.resolve == l.ops.resolve
      ensures Valid() && this.l == l && this.program == program && this.vars == vars && fresh(evaluator)
      ensures State() == St(program.at, vars.env, 0, 0, map[])
    {
      this.l, this.program, this.vars := l, program, vars;
      evaluator := new Evaluator(l.ops, program, vars);
      whileNest, forNest, sc, marks := 0, 0, map[], map[];
      NoOffsets(program.codes, program.tokens);
    }

    /** A variable of the interpreter's own is set. */
    method Keep(v: ScVar, x: ScVal, ghost mark: ScVal)
      requires Valid() && (mark.Index? ==> mark.i <= |program.tokens|)
      requires x == OffsetOf(program.codes, program.tokens, mark)
      modifies this`sc, this`marks
      ensures Valid() && marks == old(marks)[v := mark]
    {
      hide Offset, AllStorable, OffsetsOf, SavedInside, StoredAll, NoNull;
      OffsetsPut(program.codes, program.tokens, marks, v, mark);
      sc, marks := sc[v := x], marks[v := mark];
    }

    method KeepText(v: ScVar, text: string)
      requires Valid()
      modifies this`sc, this`marks
      ensures Valid() && marks == old(marks)[v := Text(text)]
    {
      hide Offset, AllStorable, OffsetsOf, SavedInside, StoredAll, NoNull;
      Keep(v, Text(text), Text(text));
    }

    /** The index of the cursor is kept. */
    method KeepCursor(v: ScVar)
      requires Valid()
      modifies this`sc, this`marks
      ensures Valid() && marks == old(marks)[v := Index(program.at)]
    {
      hide Offset, AllStorable, OffsetsOf, SavedInside, StoredAll, NoNull;
      Keep(v, Index(program.idx), Index(program.at));
    }

    /** The cursor goes to an index kept in a variable. */
    method GoTo(v: ScVar)
      requires Valid() && v in sc && sc[v].Index?
      modifies program
      ensures Valid() && v in marks && marks[v].Index? && program.at == marks[v].i <= |program.tokens|
    {
      hide Offset, AllStorable, OffsetsOf, SavedInside, StoredAll, NoNull;
      OffsetsAt(program.codes, program.tokens, marks, v);
      program.SetIdx(sc[v].i, marks[v].i);
    }

    /** A variable has an index, or a text, exactly where it has one by tokens. */
    lemma KeptAt(v: ScVar)
      requires Valid()
      ensures v in sc <==> v in marks
      ensures v in sc ==> (sc[v].Index? <==> marks[v].Index?) && (sc[v].Text? ==> marks[v] == sc[v])
    {
      hide Offset, AllStorable, OffsetsOf, SavedInside, StoredAll, NoNull;
      OffsetsAt(program.codes, program.tokens, marks, v);
    }

    /** The next token, `$` variables replaced. */
    method GetToken() returns (t: Token)
      requires Valid()
      modifies program
      ensures Valid() && t == TokenAt(l.ops.resolve, program.tokens, vars.env, old(program.at))
      ensures program.at == Past(program.tokens, old(program.at)) && program.savedAt == old(program.at)
      ensures t.kind == NullToken <==> old(program.at) == |program.tokens|
    {
      hide Offset, AllStorable, OffsetsOf, SavedInside, StoredAll, NoNull;
      t := program.GetToken(vars.env);
    }

    /** The last token is read again. */
    method PutToken()
      requires Valid()
      modifies program
      ensures Valid() && program.at == program.savedAt == old(program.savedAt) <= |program.tokens|
    {
      hide Offset, AllStorable, OffsetsOf, SavedInside, StoredAll, NoNull;
      program.PutToken();
    }

    lemma CursorInside()
      requires Valid()
      ensures program.at <= |program.tokens| && program.savedAt <= |program.tokens|
    {
      hide Offset, AllStorable, OffsetsOf, SavedInside, StoredAll, NoNull;
    }

    method Compute() returns (ret: Ret, text: string)
      requires Valid()
      modifies program, vars, evaluator
      ensures Valid()
      ensures var o := Flow.Expr(l, program.tokens, old(State()));
              State() == Moved(old(State()), o) && ret == RetOf(o.status) && text == o.token
    {
      hide Evaluate, Offset, AllStorable, OffsetsOf, SavedInside, StoredAll, NoNull;
      var status;
      status, text := evaluator.Expression();
      ret := RetOf(status);
    }

    /** The scan of `cmd_if` over a false branch: source/if.c:64-105. */
    method SkipBranch() returns (k: Kind)
      requires Valid()
      modifies program
      ensures Valid()
      ensures Found(ScanFrom(program.tokens, old(program.at), IfScan(0)), k)
    {
      hide Evaluate, ScanFrom, Offset, AllStorable, OffsetsOf, SavedInside, StoredAll, NoNull;
      var nest := 0;
      while true
        invariant Valid() && old(program.at) <= program.at
        invariant ScanFrom(program.tokens, old(program.at), IfScan(0))
                  == ScanFrom(program.tokens, program.at, IfScan(nest))
        decreases |program.tokens| - program.at
      {
        ScanStep(program.tokens, program.at, IfScan(nest));
        var t := program.GetTokenNoEval();
        if t.kind == NullToken {
          return NullToken;
        } else if t.kind == If {
          nest := nest + 1;
        } else if t.kind == Else || t.kind == ElseIf {
          if nest == 0 {
            return t.kind;
          }
        } else if t.kind == EndIf {
          if nest == 0 {
            return EndIf;
          }
          nest := nest - 1;
        }
      }
    }

    /** A scan that stopped behind the token at `j`, or ran out of tokens. */
    ghost predicate Found(j: nat, k: Kind)
      reads program
    {
      if j >= |program.tokens| then k == NullToken && program.at == |program.tokens|
      else k == program.tokens[j].kind && k != NullToken && program.at == j + 1
    }

    method CmdIf() returns (ret: Ret)
      requires Valid()
      modifies program, vars, evaluator
      ensures Valid()
      ensures Flow.CmdIf(l, program.tokens, old(State())) == CmdOut(State(), ret)
      decreases |program.tokens| - program.at
    {
      hide Evaluate, Flow.Expr, ScanFrom, Valid;
      CursorInside();
      var text;
      ret, text := Compute();
      if ret != Fine || l.truth(text) {
        return;
      }
      var k := SkipBranch();
      if k == NullToken {
        return Bad;
      } else if k == ElseIf {
        // The result of the recursive call is dropped; an exit of the process is not a result.
        ret := CmdIf();
        if ret == Bad {
          ret := Fine;
        }
      }
    }

    /** source/if.c:124-160 and, for ELSE_IF, 169-210 */
    method CmdElse() returns (ret: Ret)
      requires Valid()
      modifies program
      ensures Valid()
      ensures Flow.CmdElse(program.tokens, old(State())) == CmdOut(State(), ret)
    {
      hide Evaluate, ScanFrom, Offset, AllStorable, OffsetsOf, SavedInside, StoredAll, NoNull;
      var nest := 0;
      while true
        invariant Valid() && old(program.at) <= program.at
        invariant ScanFrom(program.tokens, old(program.at), EndIfScan(0))
                  == ScanFrom(program.tokens, program.at, EndIfScan(nest))
        decreases |program.tokens| - program.at
      {
        ScanStep(program.tokens, program.at, EndIfScan(nest));
        var t := program.GetTokenNoEval();
        if t.kind == NullToken {
          return Fine;
        } else if t.kind == If {
          nest := nest + 1;
        } else if t.kind == EndIf {
          if nest == 0 {
            return Fine;
          }
          nest := nest - 1;
        }
      }
    }

    /** The scan of `cmd_while` over the body of a loop that is not entered: source/while.c:87-121. */
    method SkipWhileBody() returns (found: bool)
      requires Valid()
      modifies program
      ensures Valid()
      ensures Found(ScanFrom(program.tokens, old(program.at), WhileScan(0)), if found then EndWhile else NullToken)
    {
      hide Evaluate, ScanFrom, ScanToken, Offset, AllStorable, OffsetsOf, SavedInside, StoredAll, NoNull;
      var nest := 0;
      while true
        invariant Valid() && old(program.at) <= program.at
        invariant ScanFrom(program.tokens, old(program.at), WhileScan(0))
                  == ScanFrom(program.tokens, program.at, WhileScan(nest))
        decreases |program.tokens| - program.at
      {
        WhileScanStep(program.tokens, program.at, nest);
        var t := program.GetTokenNoEval();
        if t.kind == NullToken {
          return false;
        } else if t.kind == While {
          nest := nest + 1;
        } else if t.kind == EndWhile {
          if nest == 0 {
            return true;
          }
          nest := nest - 1;
        }
      }
    }

    /** The index of the WHILE itself, one token back, and the WHILE read again: source/while.c:63-69. */
    method SaveLoop()
      requires Valid() && program.savedAt < |program.tokens| && program.at == program.savedAt + 1
      modifies this`sc, this`marks, program
      ensures Valid() && program.at == old(program.at)
      ensures marks == old(marks)[WhileVar(whileNest) := Index(old(program.savedAt))]
    {
      hide Evaluate, Valid;
      PutToken();
      KeepCursor(WhileVar(whileNest));
      var t := GetToken();
    }

    /** source/while.c:40-123 */
    method CmdWhile() returns (ret: Ret)
      requires Valid() && program.savedAt < |program.tokens| && program.at == program.savedAt + 1
      modifies this, program, vars, evaluator
      ensures Valid()
      ensures Flow.CmdWhile(l, program.tokens, old(program.savedAt), old(State())) == CmdOut(State(), ret)
    {
      hide Evaluate, Flow.Expr, ScanFrom, Valid;
      CursorInside();
      whileNest := whileNest + 1;
      SaveLoop();
      var text;
      ret, text := Compute();
      if ret != Fine || l.truth(text) {
        return;
      }
      var found := SkipWhileBody();
      if !found {
        return Bad;
      }
      whileNest := whileNest - 1;
    }

    /** source/while.c:124-169 */
    method CmdEndWhile() returns (ret: Ret)
      requires Valid()
      modifies this, program
      ensures Valid()
      ensures Flow.CmdEndWhile(program.tokens, old(State())) == CmdOut(State(), ret)
    {
      hide Offset, AllStorable, OffsetsOf, SavedInside, StoredAll, NoNull;
      if whileNest < 1 {
        return Fine;
      }
      KeptAt(WhileVar(whileNest));
      if WhileVar(whileNest) !in sc || !sc[WhileVar(whileNest)].Index? {
        return Bad;
      }
      GoTo(WhileVar(whileNest));
      whileNest := whileNest - 1;
      return Fine;
    }

    /** source/for.c:147-188, the scan over a FOR with an empty range. */
    method SkipLoop(name: string, x: int, y: int, ret0: Ret) returns (ret: Ret)
      requires Valid()
      modifies this, program
      ensures Valid()
      ensures Flow.SkipFor(program.tokens, name, x, y, old(State()), ret0) == CmdOut(State(), ret)
    {
      hide Evaluate, ScanFrom, Offset, AllStorable, OffsetsOf, SavedInside, StoredAll, NoNull;
      if x <= y {
        return ret0;
      }
      var flag := false;
      forNest := forNest - 1;
      var save := program.idx;
      ghost var st, from := State(), program.at;
      while true
        invariant Valid() && from <= program.at && State() == st.(idx := program.at)
        invariant ScanFrom(program.tokens, from, ForScan(name, false))
                  == ScanFrom(program.tokens, program.at, ForScan(name, flag))
        decreases |program.tokens| - program.at
      {
        ScanStep(program.tokens, program.at, ForScan(name, flag));
        var t := program.GetTokenNoEval();
        if t.kind == NullToken {
          program.SetIdx(save, from);
          return Bad;
        }
        if flag {
          if t.text == name {
            return ret0;
          }
          flag := false;
        } else {
          flag := t.kind == Next;
        }
      }
    }

    /** source/for.c:38-188 */
    method CmdFor() returns (ret: Ret)
      requires Valid()
      modifies this, program, vars, evaluator
      ensures Valid()
      ensures Flow.CmdFor(l, program.tokens, old(State())) == CmdOut(State(), ret)
    {
      hide Evaluate, Flow.Expr, ScanFrom, Valid, Flow.SkipFor, Flow.ForTo;
      CursorInside();
      forNest := forNest + 1;
      var name := GetToken();
      if name.kind != Value(Identifier) {
        return Bad;
      }
      var t := GetToken();
      if t.kind != Assign {
        return Bad;
      }
      var text;
      ret, text := Compute();
      if ret != Fine {
        return;
      }
      var x := l.num(text);
      vars.env := vars.env[name.text := text];
      ret := ForLimits(name.text, x);
    }

    /** source/for.c:92-145 */
    method ForLimits(name: string, x: int) returns (ret: Ret)
      requires Valid()
      modifies this, program, vars, evaluator
      ensures Valid()
      ensures Flow.ForTo(l, program.tokens, name, x, old(State())) == CmdOut(State(), ret)
    {
      hide Evaluate, Flow.Expr, ScanFrom, Valid, Flow.SkipFor, Flow.ForStep;
      CursorInside();
      var t := GetToken();
      if t.kind != To {
        ret := SkipLoop(name, x, 0, Bad);
        return;
      }
      var text;
      ret, text := Compute();
      if ret == Bad {
        ret := SkipLoop(name, x, 0, Bad);
        return;
      } else if ret != Fine {
        return;
      }
      var y := l.num(text);
      KeepText(ToVar(forNest), text);
      ret := ForIncrement(name, x, y);
    }

    /** source/for.c:121-145 */
    method ForIncrement(name: string, x: int, y: int) returns (ret: Ret)
      requires Valid()
      modifies this, program, vars, evaluator
      ensures Valid()
      ensures Flow.ForStep(l, program.tokens, name, x, y, old(State())) == CmdOut(State(), ret)
    {
      hide Evaluate, Flow.Expr, ScanFrom, Valid, Flow.SkipFor;
      CursorInside();
      var text;
      var t := GetToken();
      if t.kind == Step {
        ret, text := Compute();
        if ret == Exit || ret == Hung {
          return;
        }
      } else {
        ret := Fine;
        PutToken();
        text := "1";
      }
      KeepText(StepVar(forNest), text);
      KeepCursor(ForVar(forNest));
      ret := SkipLoop(name, x, y, ret);
    }

    /** source/for.c:204-294 */
    method CmdNext() returns (ret: Ret)
      requires Valid()
      modifies this, program, vars
      ensures Valid()
      ensures Flow.CmdNext(l, program.tokens, old(State())) == CmdOut(State(), ret)
    {
      hide Evaluate, Flow.Expr, ScanFrom, Valid, Wrap32;
      CursorInside();
      var name := GetToken();
      if name.text !in vars.env {
        return Bad;
      }
      KeptAt(ToVar(forNest));
      KeptAt(StepVar(forNest));
      KeptAt(ForVar(forNest));
      if !HasText(sc, ToVar(forNest)) || !HasText(sc, StepVar(forNest)) {
        return Exit;
      }
      var y := l.num(sc[ToVar(forNest)].s);
      var x := Wrap32(l.num(vars.env[name.text]) + l.num(sc[StepVar(forNest)].s));
      if x <= y {
        vars.env := vars.env[name.text := l.show(x)];
        if ForVar(forNest) !in sc || !sc[ForVar(forNest)].Index? {
          return Exit;
        }
        GoTo(ForVar(forNest));
      } else {
        forNest := forNest - 1;
      }
      return Fine;
    }

    /** What the scan shared by CONTINUE and BREAK_LOOP makes of a token: its end, or the two nests. */
    static method LoopToken(t: Token, fors: nat, whiles: nat) returns (stop: bool, fors1: nat, whiles1: nat)
      ensures ScanToken(LoopScan(fors, whiles), t) == if stop then Stop else Go(LoopScan(fors1, whiles1))
      ensures stop ==> EndsScript(t.kind) || t.kind == Next || t.kind == EndWhile
    {
      stop, fors1, whiles1 := false, fors, whiles;
      if EndsScript(t.kind) {
        stop := true;
      } else if t.kind == For {
        fors1 := fors + 1;
      } else if t.kind == While {
        whiles1 := whiles + 1;
      } else if t.kind == Next {
        if fors == 0 {
          stop := true;
        } else {
          fors1 := fors - 1;
        }
      } else if t.kind == EndWhile {
        if whiles == 0 {
          stop := true;
        } else {
          whiles1 := whiles - 1;
        }
      }
    }

    /** The scan shared by CONTINUE and BREAK_LOOP. */
    method SkipToLoopEnd() returns (k: Kind)
      requires Valid()
      modifies program
      ensures Valid()
      ensures var j := ScanFrom(program.tokens, old(program.at), LoopScan(0, 0));
              Found(j, k) && program.savedAt == j
              && (k == NullToken || EndsScript(k) || k == Next || k == EndWhile)
    {
      hide Evaluate, ScanFrom, ScanToken, EndsScript, Offset, AllStorable, OffsetsOf, SavedInside, StoredAll, NoNull;
      var fors: nat, whiles: nat := 0, 0;
      while true
        invariant Valid() && old(program.at) <= program.at
        invariant ScanFrom(program.tokens, old(program.at), LoopScan(0, 0))
               == ScanFrom(program.tokens, program.at, LoopScan(fors, whiles))
        decreases |program.tokens| - program.at
      {
        ScanStep(program.tokens, program.at, LoopScan(fors, whiles));
        var t := program.GetTokenNoEval();
        if t.kind == NullToken {
          return NullToken;
        }
        var stop;
        stop, fors, whiles := LoopToken(t, fors, whiles);
        if stop {
          return t.kind;
        }
      }
    }

    /** source/continue.c:47-97 */
    method CmdContinue() returns (ret: Ret)
      requires Valid()
      modifies program
      ensures Valid()
      ensures Flow.CmdContinue(program.tokens, old(State())) == CmdOut(State(), ret)
    {
      hide ScanFrom, Offset, AllStorable, OffsetsOf, SavedInside, StoredAll, NoNull;
      var k := SkipToLoopEnd();
      if k == Next || k == EndWhile {
        program.PutToken();
      }
      return Fine;
    }

    /** source/break.c:48-103 */
    method CmdBreak() returns (ret: Ret)
      requires Valid()
      modifies this, program
      ensures Valid()
      ensures Flow.CmdBreak(program.tokens, old(State())) == CmdOut(State(), ret)
    {
      hide ScanFrom, Offset, AllStorable, OffsetsOf, SavedInside, StoredAll, NoNull;
      var k := SkipToLoopEnd();
      if k == Next {
        var name := program.GetTokenNoEval();
      } else if k == EndWhile {
        whileNest := whileNest - 1;
      } else {
        program.PutToken();
      }
      return Fine;
    }

    /** source/let.c:71-124 */
    method CmdLet() returns (ret: Ret)
      requires Valid()
      modifies program, vars, evaluator
      ensures Valid()
      ensures Flow.CmdLet(l, program.tokens, old(State())) == CmdOut(State(), ret)
    {
      hide Evaluate, Flow.Expr, ScanFrom, Valid;
      CursorInside();
      var name := GetToken();
      if name.kind != Value(Identifier) && name.kind != Value(Variable) {
        return Bad;
      }
      var t := GetToken();
      if t.kind != Assign {
        return Bad;
      }
      var text;
      ret, text := Compute();
      if ret == Fine {
        vars.env := vars.env[name.text := text];
      }
    }

    /** source/execute.c:150-290 */
    method Command(k: Kind) returns (ret: Ret)
      requires Valid() && program.savedAt < |program.tokens| && program.at == program.savedAt + 1
      modifies this, program, vars, evaluator
      ensures Valid()
      ensures Flow.Dispatch(l, program.tokens, old(program.savedAt), k, old(State())) == CmdOut(State(), ret)
    {
      hide Flow.CmdBreak, Flow.CmdContinue, Flow.CmdLet, Flow.CmdElse, Flow.CmdEndWhile, Flow.CmdFor, Flow.CmdIf,
           Flow.CmdNext, Flow.CmdWhile, Evaluate, Flow.Expr, ScanFrom, Valid;
      CursorInside();
      match k {
        case BreakLoop => ret := CmdBreak();
        case Continue => ret := CmdContinue();
        case Let => ret := CmdLet();
        case Else => ret := CmdElse();
        case ElseIf => ret := CmdElse();
        case EndWhile => ret := CmdEndWhile();
        case For => ret := CmdFor();
        case If => ret := CmdIf();
        case Next => ret := CmdNext();
        case While => ret := CmdWhile();
        case Function(_) =>
          PutToken();
          var text;
          ret, text := Compute();
        case _ => ret := Bad;
      }
    }

    /** One token dispatched: how the run ends, if it does. */
    method Round() returns (ended: Option<Why>)
      requires Valid()
      modifies this, program, vars, evaluator
      ensures Valid()
      ensures Turn(l, program.tokens, old(State()))
           == if ended.None? then Running(State()) else Halted(State(), ended.value)
    {
      hide Flow.Dispatch, Evaluate, Offset, AllStorable, OffsetsOf, SavedInside, StoredAll, NoNull;
      var t := program.GetToken(vars.env);
      if EndsRun(t.kind) {
        return Some(Finished);
      } else if Silent(t.kind) {
        return None;
      } else if t.kind == Error {
        t := program.GetToken(vars.env);
        t := program.GetToken(vars.env);
        return None;
      }
      var ret := Command(t.kind);
      if ret == Fine {
        return None;
      } else if ret == Exit {
        return Some(Exited);
      } else if ret == Hung {
        return Some(Diverged);
      }
      ended := Fail();
    }

    /** The error of a command: source/execute.c:316-352 and 369-435. */
    method Fail() returns (ended: Option<Why>)
      requires Valid()
      modifies this, program
      ensures Valid()
      ensures OnError(program.tokens, old(State()))
           == if ended.None? then Running(State()) else Halted(State(), ended.value)
    {
      var t := program.GetTokenNoEval();
      if t.kind == NoError {
        return None;
      }
      program.PutToken();
      if t.kind == Error {
        return Some(ErrorClause);
      }
      whileNest, forNest := 0, 0;
      ended := Some(Aborted);
    }

    /** The state as it is has the byte offsets of the state by tokens. */
    lemma StoredIsImage()
      requires Valid()
      ensures Inside(program.tokens, State()) && Stored() == Image(program.codes, program.tokens, State())
    {
      hide Offset, AllStorable, OffsetsOf, SavedInside, StoredAll, NoNull;
    }

    /** `execute()` for at most `rounds` tokens dispatched: source/execute.c:75-359. */
    method Execute(rounds: nat) returns (ended: Option<Why>)
      requires Valid()
      modifies this, program, vars, evaluator
      ensures Valid()
      ensures Run(l, program.tokens, rounds, Running(old(State())))
           == if ended.None? then Running(State()) else Halted(State(), ended.value)
    {
      hide Turn, Evaluate, Offset, AllStorable, OffsetsOf, SavedInside, StoredAll, NoNull;
      ended := None;
      var left := rounds;
      while left > 0 && ended.None?
        invariant Valid()
        invariant Run(l, program.tokens, rounds, Running(old(State())))
               == Run(l, program.tokens, left, if ended.None? then Running(State()) else Halted(State(), ended.value))
      {
        left := left - 1;
        ended := Round();
      }
    }
  }

  /** A stored program run from its first byte: after any number of rounds the cursor and the indices
      kept for WHILE and FOR are the offsets of the tokens at which the run by tokens stands. */
  method RunStored(l: Lang, codes: Codes, bytes: seq<byte>, ghost p: seq<Token>, env: Env, rounds: nat)
      returns (ended: Option<Why>, st: St)
    requires AllStorable(codes, p) && NoNull(p) && bytes == StoredAll(codes, p)
    ensures var c := Run(l, p, rounds, Running(St(0, env, 0, 0, map[])));
            && Inside(p, c.st) && st == Image(codes, p, c.st)
            && match c case Running(_) => ended == None case Halted(_, why) => ended == Some(why)
  {
    hide Run, Offset, AllStorable, OffsetsOf, SavedInside, StoredAll, NoNull;
    var program := new StoredProgram(codes, bytes, p, l.ops.resolve);
    var vars := new Variables(env);
    var interpreter := new Interpreter(l, program, vars);
    ended := interpreter.Execute(rounds);
    interpreter.StoredIsImage();
    st := St(program.idx, vars.env, interpreter.whileNest, interpreter.forNest, interpreter.sc);
  }
}
