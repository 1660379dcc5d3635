/** The flat token stream and the structured meaning of a script agree. */
module FlowTheorem {
  import opened Tokens
  import opened Programs
  import opened Flow
  import opened Structured
  import opened FlowTurns
  import opened FlowCorrect

  /** A token at which a script ends. */
  predicate Stops(k: Kind) {
    k == NullToken || k == After || k == Begin || k == Break || k == End || k == Label
  }

  /** After `n` rounds the run has ended as stated. A run that finishes has read the token at `end`, if
      there is one, and leaves both nests at their values on entry; an error that no clause catches
      resets them. */
  ghost predicate EndsAfter(l: Lang, p: seq<Token>, st: St, end: nat, n: nat, why: Why, env: Env)
    requires st.idx <= |p|
  {
    var c := Run(l, p, n, Running(st));
    && c.Halted? && c.why == why && c.st.env == env
    && (why == Finished ==> c.st.idx == Past(p, end) && c.st.wn == st.wn && c.st.fn == st.fn)
    && (why == Aborted ==> c.st.wn == 0 && c.st.fn == 0)
  }

  ghost predicate RunsTo(l: Lang, p: seq<Token>, st: St, end: nat, why: Why, env: Env)
    requires st.idx <= |p|
  {
    exists n: nat :: EndsAfter(l, p, st, end, n, why, env)
  }

  ghost predicate Means(l: Lang, b: Block, env: Env, r: Result) {
    exists k: nat :: Exec(l, k, b, env) == r
  }

  /** A whole script stands at the cursor. */
  ghost predicate Stands(p: seq<Token>, b: Block, st: St) {
    && Proper(b, Outside) && st.wn >= 0 && st.idx <= |p|
    && At(p, st.idx, BlockToks(b)) && Stops(RawAt(p, st.idx + |BlockToks(b)|).kind)
  }

  /** What `k` loop rounds of meaning say about the run. */
  lemma MeaningRuns(l: Lang, p: seq<Token>, b: Block, st: St, k: nat)
    requires Stands(p, b, st)
    ensures var end := st.idx + |BlockToks(b)|;
            match Exec(l, k, b, st.env)
            case Done(v, s) => s == Normal && RunsTo(l, p, st, end, Finished, v)
            case Abort(v) => RunsTo(l, p, st, end, Aborted, v)
            case Caught(v) => RunsTo(l, p, st, end, ErrorClause, v)
            case Quit(v) => RunsTo(l, p, st, end, Exited, v)
            case Timeout => exists n: nat :: n >= k && Run(l, p, n, Running(st)).Running?
  {
    hide Run, Turn, Exec, At, BlockToks;
    var r, end := Exec(l, k, b, st.env), st.idx + |BlockToks(b)|;
    AtBound(p, st.idx, BlockToks(b));
    SignalsProper(l, k, b, st.env, Outside);
    var n, sc1 := BlockLands(l, p, k, b, st, Outside, 0);
    match r
    case Done(v, s) =>
      var st1 := St(end, v, st.wn, st.fn, sc1);
      StopTurn(l, p, st1);
      OneRound(l, p, st1);
      RunAdd(l, p, n, 1, Running(st));
      assert EndsAfter(l, p, st, end, n + 1, Finished, v);
    case Abort(v) => assert EndsAfter(l, p, st, end, n, Aborted, v);
    case Caught(v) => assert EndsAfter(l, p, st, end, n, ErrorClause, v);
    case Quit(v) => assert EndsAfter(l, p, st, end, n, Exited, v);
    case Timeout =>
  }

  lemma StopTurn(l: Lang, p: seq<Token>, st: St)
    requires st.idx <= |p| && Stops(RawAt(p, st.idx).kind)
    ensures Turn(l, p, st) == Halted(st.(idx := Past(p, st.idx)), Finished)
  {
    hide Dispatch;
  }

  /** A run that has ended stays ended. */
  lemma StaysEnded(l: Lang, p: seq<Token>, c: Config, n: nat, m: nat)
    requires c.st.idx <= |p| && n <= m && Run(l, p, n, c).Halted?
    ensures Run(l, p, m, c) == Run(l, p, n, c)
  {
    hide Turn;
    RunAdd(l, p, n, m - n, c);
  }

  lemma EndsOnce(l: Lang, p: seq<Token>, st: St, end: nat, n: nat, w: Why, v: Env, n1: nat, w1: Why, v1: Env)
    requires st.idx <= |p|
    requires EndsAfter(l, p, st, end, n, w, v) && EndsAfter(l, p, st, end, n1, w1, v1)
    ensures w == w1 && v == v1
  {
    hide Run;
    if n <= n1 {
      StaysEnded(l, p, Running(st), n, n1);
    } else {
      StaysEnded(l, p, Running(st), n1, n);
    }
  }

  function WhyOf(r: Result): Why {
    match r
    case Done(_, _) => Finished
    case Abort(_) => Aborted
    case Caught(_) => ErrorClause
    case Quit(_) => Exited
    case Timeout => Diverged
  }

  /** A result the meaning can have for a whole script. */
  predicate Final(r: Result) { !r.Timeout? && (r.Done? ==> r.sig == Normal) }

  lemma RunMeans(l: Lang, p: seq<Token>, b: Block, st: St, r: Result)
    requires Stands(p, b, st) && Final(r) && RunsTo(l, p, st, st.idx + |BlockToks(b)|, WhyOf(r), r.env)
    ensures Means(l, b, st.env, r)
  {
    hide Run, Exec, Stands, BlockToks;
    assert st.idx <= |p| by { StandsInside(p, b, st); }
    var end := st.idx + |BlockToks(b)|;
    var n: nat :| EndsAfter(l, p, st, end, n, WhyOf(r), r.env);
    var k := n + 1;
    MeaningRuns(l, p, b, st, k);
    var x := Exec(l, k, b, st.env);
    if x.Timeout? {
      var m: nat :| m >= k && Run(l, p, m, Running(st)).Running?;
      StaysEnded(l, p, Running(st), n, m);
    } else {
      var n1: nat :| EndsAfter(l, p, st, end, n1, WhyOf(x), x.env);
      EndsOnce(l, p, st, end, n, WhyOf(r), r.env, n1, WhyOf(x), x.env);
    }
  }

  lemma StandsInside(p: seq<Token>, b: Block, st: St)
    requires Stands(p, b, st)
    ensures st.idx <= |p|
  {
  }

  ghost predicate MeaningGoesOn(l: Lang, b: Block, env: Env) {
    forall k: nat :: Exec(l, k, b, env) == Timeout
  }

  ghost predicate RunGoesOn(l: Lang, p: seq<Token>, st: St)
    requires st.idx <= |p|
  {
    forall n: nat :: Run(l, p, n, Running(st)).Running?
  }

  /** For every proper script, wherever it stands in front of a token that ends it or of the end of the
      program, the flat run and the structured meaning end in the same way with the same variables, and
      one goes on forever exactly when the other does. */
  lemma ScriptAgrees(l: Lang, p: seq<Token>, b: Block, st: St)
    requires Stands(p, b, st)
    ensures forall r: Result | Final(r) ::
              Means(l, b, st.env, r) <==> RunsTo(l, p, st, st.idx + |BlockToks(b)|, WhyOf(r), r.env)
    ensures MeaningGoesOn(l, b, st.env) <==> RunGoesOn(l, p, st)
  {
    hide Run, Exec, BlockToks, Stands;
    assert st.idx <= |p| by { StandsInside(p, b, st); }
    forall r: Result | Final(r)
      ensures Means(l, b, st.env, r) <==> RunsTo(l, p, st, st.idx + |BlockToks(b)|, WhyOf(r), r.env)
    {
      if Means(l, b, st.env, r) {
        var k: nat :| Exec(l, k, b, st.env) == r;
        MeaningRuns(l, p, b, st, k);
      }
      if RunsTo(l, p, st, st.idx + |BlockToks(b)|, WhyOf(r), r.env) {
        RunMeans(l, p, b, st, r);
      }
    }
    DivergeTogether(l, p, b, st);
  }

  lemma DivergeTogether(l: Lang, p: seq<Token>, b: Block, st: St)
    requires Stands(p, b, st)
    ensures MeaningGoesOn(l, b, st.env) <==> RunGoesOn(l, p, st)
  {
    hide Run, Exec, BlockToks, Stands;
    assert st.idx <= |p| by { StandsInside(p, b, st); }
    if MeaningGoesOn(l, b, st.env) {
      forall n: nat ensures Run(l, p, n, Running(st)).Running? {
        if Run(l, p, n, Running(st)).Halted? {
          MeaningRuns(l, p, b, st, n);
          var m: nat :| m >= n && Run(l, p, m, Running(st)).Running?;
          StaysEnded(l, p, Running(st), n, m);
        }
      }
    }
    if RunGoesOn(l, p, st) {
      forall k: nat ensures Exec(l, k, b, st.env) == Timeout {
        MeaningRuns(l, p, b, st, k);
      }
    }
  }
}
