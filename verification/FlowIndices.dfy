/** Every index a run keeps is the index of a token, or the end of the program: the cursor and the
    indices saved for WHILE and FOR. */
module FlowIndices {
  import opened Tokens
  import opened Programs
  import opened Expression
  import opened Flow
  import opened ProgramText

  predicate SavedInside(p: seq<Token>, sc: ScVars) {
    forall v :: v in sc && sc[v].Index? ==> sc[v].i <= |p|
  }

  predicate Inside(p: seq<Token>, st: St) {
    st.idx <= |p| && SavedInside(p, st.sc)
  }

  // ---------------------------------------------------------------- on the stored bytes

  /** The numbered variables as the program keeps them, with byte offsets for indices. */
  function OffsetsOf(c: Codes, p: seq<Token>, sc: ScVars): ScVars
    requires AllStorable(c, p) && SavedInside(p, sc)
  {
    map v | v in sc :: OffsetOf(c, p, sc[v])
  }

  function OffsetOf(c: Codes, p: seq<Token>, x: ScVal): ScVal
    requires AllStorable(c, p) && (x.Index? ==> x.i <= |p|)
  {
    match x
    case Index(i) => Index(Offset(c, p, i))
    case Text(s) => Text(s)
  }

  /** The state of the program on the stored bytes. */
  function Image(c: Codes, p: seq<Token>, st: St): St
    requires AllStorable(c, p) && Inside(p, st)
  {
    St(Offset(c, p, st.idx), st.env, st.wn, st.fn, OffsetsOf(c, p, st.sc))
  }

  lemma OffsetsPut(c: Codes, p: seq<Token>, sc: ScVars, v: ScVar, x: ScVal)
    requires AllStorable(c, p) && SavedInside(p, sc) && (x.Index? ==> x.i <= |p|)
    ensures SavedInside(p, sc[v := x]) && OffsetsOf(c, p, sc[v := x]) == OffsetsOf(c, p, sc)[v := OffsetOf(c, p, x)]
  {
    hide Offset, AllStorable;
  }

  /** What is kept under a name is an index or a text, as it is by tokens. */
  lemma OffsetsAt(c: Codes, p: seq<Token>, sc: ScVars, v: ScVar)
    requires AllStorable(c, p) && SavedInside(p, sc)
    ensures v in OffsetsOf(c, p, sc) <==> v in sc
    ensures v in sc ==> (sc[v].Index? ==> sc[v].i <= |p|) && OffsetsOf(c, p, sc)[v] == OffsetOf(c, p, sc[v])
  {
    hide Offset, AllStorable;
  }

  lemma NoOffsets(c: Codes, p: seq<Token>)
    requires AllStorable(c, p)
    ensures SavedInside(p, map[]) && OffsetsOf(c, p, map[]) == map[]
  {
    hide Offset, AllStorable;
  }

  // ---------------------------------------------------------------- no command leaves the program

  lemma SkipInside(p: seq<Token>, name: string, x: int, y: int, st: St, ret: Ret)
    requires Inside(p, st)
    ensures Inside(p, SkipFor(p, name, x, y, st, ret).st)
  {
    hide ScanFrom;
  }

  lemma StepInside(l: Lang, p: seq<Token>, name: string, x: int, y: int, st: St)
    requires Inside(p, st)
    ensures Inside(p, ForStep(l, p, name, x, y, st).st)
  {
    hide ScanFrom, Evaluate, SkipFor;
    if TokenAt(l.ops.resolve, p, st.env, st.idx).kind != Step {
      SkipInside(p, name, x, y, ForSaved(st, "1"), Fine);
    } else {
      var o := Flow.Expr(l, p, st.(idx := Past(p, st.idx)));
      SkipInside(p, name, x, y, ForSaved(Moved(st, o), o.token), RetOf(o.status));
    }
  }

  lemma ToInside(l: Lang, p: seq<Token>, name: string, x: int, st: St)
    requires Inside(p, st)
    ensures Inside(p, ForTo(l, p, name, x, st).st)
  {
    hide ScanFrom, Evaluate, SkipFor, ForStep;
    var st0 := st.(idx := Past(p, st.idx));
    if TokenAt(l.ops.resolve, p, st.env, st.idx).kind != To {
      SkipInside(p, name, x, 0, st0, Bad);
    } else {
      var o := Flow.Expr(l, p, st0);
      var st1 := Moved(st0, o);
      SkipInside(p, name, x, 0, st1, Bad);
      StepInside(l, p, name, x, l.num(o.token), st1.(sc := st1.sc[ToVar(st1.fn) := Text(o.token)]));
    }
  }

  lemma ForInside(l: Lang, p: seq<Token>, st: St)
    requires Inside(p, st)
    ensures Inside(p, CmdFor(l, p, st).st)
  {
    hide ScanFrom, Evaluate, ForTo;
    var name := TokenAt(l.ops.resolve, p, st.env, st.idx);
    var st1 := st.(fn := st.fn + 1, idx := Past(p, Past(p, st.idx)));
    var o := Flow.Expr(l, p, st1);
    ToInside(l, p, name.text, l.num(o.token), Moved(st1, o).(env := o.env[name.text := o.token]));
  }

  lemma WhileInside(l: Lang, p: seq<Token>, at: nat, st: St)
    requires Inside(p, st) && at < |p|
    ensures Inside(p, CmdWhile(l, p, at, st).st)
  {
    hide ScanFrom, Evaluate;
  }

  lemma {:induction false} IfInside(l: Lang, p: seq<Token>, st: St)
    requires Inside(p, st)
    ensures Inside(p, CmdIf(l, p, st).st)
    decreases |p| - st.idx
  {
    hide ScanFrom, Evaluate, SavedInside;
    var o := Flow.Expr(l, p, st);
    var j := ScanFrom(p, o.idx, IfScan(0));
    if j < |p| { IfInside(l, p, Moved(st, o).(idx := j + 1)); }
  }

  lemma OthersInside(l: Lang, p: seq<Token>, st: St)
    requires Inside(p, st)
    ensures Inside(p, CmdNext(l, p, st).st) && Inside(p, CmdContinue(p, st).st) && Inside(p, CmdBreak(p, st).st)
    ensures Inside(p, CmdLet(l, p, st).st) && Inside(p, CmdElse(p, st).st) && Inside(p, CmdEndWhile(p, st).st)
  {
    hide ScanFrom, Evaluate, SavedInside, TokenAt;
  }

  lemma DispatchInside(l: Lang, p: seq<Token>, at: nat, k: Kind, st: St)
    requires Inside(p, st) && at < |p|
    ensures Inside(p, Dispatch(l, p, at, k, st).st)
  {
    hide CmdFor, CmdWhile, CmdIf, CmdNext, CmdContinue, CmdBreak, CmdLet, CmdElse, CmdEndWhile, Evaluate, SavedInside;
    ForInside(l, p, st);
    WhileInside(l, p, at, st);
    IfInside(l, p, st);
    OthersInside(l, p, st);
  }

  lemma TurnInside(l: Lang, p: seq<Token>, st: St)
    requires Inside(p, st)
    ensures Inside(p, Turn(l, p, st).st)
  {
    hide Dispatch, SavedInside, TokenAt;
    if st.idx < |p| {
      DispatchInside(l, p, st.idx, TokenAt(l.ops.resolve, p, st.env, st.idx).kind, st.(idx := Past(p, st.idx)));
    } else {
      assert TokenAt(l.ops.resolve, p, st.env, st.idx).kind == NullToken by { NullAtEnd(l, p, st); }
    }
  }

  lemma NullAtEnd(l: Lang, p: seq<Token>, st: St)
    requires st.idx >= |p|
    ensures TokenAt(l.ops.resolve, p, st.env, st.idx).kind == NullToken
  {
  }

  /** However long a run, all its indices are those of tokens or the end. */
  lemma {:induction false} RunInside(l: Lang, p: seq<Token>, n: nat, c: Config)
    requires Inside(p, c.st)
    ensures Inside(p, Run(l, p, n, c).st)
    decreases n
  {
    hide Turn, SavedInside;
    if n > 0 && c.Running? {
      TurnInside(l, p, c.st);
      RunInside(l, p, n - 1, Turn(l, p, c.st));
    }
  }
}
