/** The imperative form of source/secs_encode_sml.c: `secs_encode` behind the message head,
    `get_num_list_elements` and the loops that read item data. Every loop of the source that only a
    token can end takes a number of rounds, the rounds of SmlEncode. */
module SmlEncoders {
  import opened Tokens
  import opened Programs
  import opened Flow
  import opened FlowIndices
  import opened Interpreters
  import opened Bytes
  import opened ProgramText
  import opened SecsItems
  import opened SmlEncode

  class Encoder {
    const interp: Interpreter
    const floats: Floats
    var buffer: seq<byte>

    ghost predicate Valid()
      reads this, interp, interp.program, interp.evaluator
    {
      interp.Valid()
    }

    constructor (interp: Interpreter, floats: Floats)
      requires interp.Valid()
      ensures Valid() && this.interp == interp && this.floats == floats && buffer == []
    {
      this.interp, this.floats, buffer := interp, floats, [];
    }

    ghost function Run(rounds: nat, e: Enc): EncConfig
      requires e.st.idx <= |interp.program.tokens| && (e.mode.Counting? ==> e.mode.saved <= |interp.program.tokens|)
    {
      EncRun(interp.l, floats, interp.program.tokens, rounds, Working(e))
    }

    /** The text of a value just read; behind a minus the value is the next token. */
    method ReadText(f: Format, t: Token, ghost i: nat) returns (text: string)
      requires Valid() && i <= |interp.program.tokens| && interp.program.at == Past(interp.program.tokens, i)
      requires t == TokenAt(interp.l.ops.resolve, interp.program.tokens, interp.vars.env, i)
      modifies interp.program
      ensures Valid() && interp.program.at >= old(interp.program.at)
      ensures DataText(interp.l, interp.program.tokens, interp.vars.env, f, i) == (text, interp.program.at)
    {
      text := t.text;
      if (f.Signed? || f.Float?) && t.kind == Binary(Minus) {
        var t1 := interp.program.GetToken(interp.vars.env);
        text := "-" + t1.text;
      }
    }

    /** The data of an item up to its `>`. */
    method ReadData(f: Format) returns (bytes: seq<byte>, ok: bool, ended: bool)
      requires Valid()
      modifies interp.program
      ensures Valid()
      ensures var d := ItemData(interp.l, floats, interp.program.tokens, interp.vars.env, f, old(interp.program.at));
              interp.program.at == d.idx && if ended then d == Data(d.idx, bytes, ok) else d.NoEnd?
    {
      hide Convert, ItemData, DataText, Rest, Rests, Offset, AllStorable, OffsetsOf, SavedInside, StoredAll;
      bytes, ok, ended := [], true, true;
      ghost var p, env := interp.program.tokens, interp.vars.env;
      ghost var d := ItemData(interp.l, floats, p, env, f, interp.program.at);
      RestAll(d);
      while true
        invariant Valid() && interp.program.at <= |p|
        invariant Rest(d, bytes, ok, ItemData(interp.l, floats, p, env, f, interp.program.at))
        decreases |p| - interp.program.at
      {
        ghost var i := interp.program.at;
        ItemDataCases(interp.l, floats, p, env, f, i);
        var t := interp.program.GetToken(interp.vars.env);
        if t.kind == Binary(GreaterThan) {
          interp.program.PutToken();
          RestEnds(d, bytes, ok, Data(i, [], true));
          return;
        }
        var text := ReadText(f, t, i);
        var c := Convert(floats, f, text);
        if f == Boolean && !c.ok {
          RestEnds(d, bytes, ok, Data(interp.program.at, [], false));
          ok := false;
          return;
        }
        if t.kind == NullToken {
          // The source reads the null token again and again.
          RestEnds(d, bytes, ok, NoEnd(i));
          ended := false;
          return;
        }
        RestStep(d, bytes, ok, c, ItemData(interp.l, floats, p, env, f, interp.program.at));
        bytes, ok := bytes + c.bytes, ok && c.ok;
      }
    }

    /** FOR or NEXT, and what its return makes of the message. */
    method RunCommand(k: Kind) returns (ret: Ret)
      requires Valid() && (k == For || k == Next)
      modifies interp, interp.program, interp.vars, interp.evaluator
      ensures Valid()
      ensures Command(interp.l, interp.program.tokens, k, old(interp.State())) == CmdOut(interp.State(), ret)
    {
      hide Flow.CmdFor, Flow.CmdNext, Offset, AllStorable, OffsetsOf, SavedInside, StoredAll;
      if k == For {
        ret := interp.CmdFor();
      } else {
        ret := interp.CmdNext();
      }
    }

    /** One token of the look-ahead: whether it ends the count or the run. */
    method CountToken(ghost saved: nat, nest: nat, cnt: nat)
      returns (nest1: nat, cnt1: nat, counted: bool, how: Option<Verdict>)
      requires Valid() && saved <= |interp.program.tokens|
      modifies interp, interp.program, interp.vars, interp.evaluator
      ensures Valid()
      ensures var c := EncTurn(interp.l, floats, interp.program.tokens,
                               Enc(old(interp.State()), buffer, Counting(saved, nest, cnt)));
              var e := Enc(interp.State(), buffer, Counting(saved, nest1, cnt1));
              c == if how.Some? then Stopped(e, how.value) else Working(if counted then SmlEncode.Counted(e) else e)
    {
      hide Command, EmitTurn, Header, EncTurn, Offset, AllStorable, OffsetsOf, SavedInside, StoredAll;
      nest1, cnt1, counted, how := nest, cnt, false, None;
      ghost var e := Enc(interp.State(), buffer, Counting(saved, nest, cnt));
      var t := interp.program.GetToken(interp.vars.env);
      TurnCounts(interp.l, floats, interp.program.tokens, e, Enc(interp.State(), buffer, e.mode), t);
      if t.kind == NullToken {
        counted := true;
      } else if t.kind == Binary(LessThan) {
        if nest == 0 {
          cnt1 := cnt + 1;
        }
        nest1 := nest + 1;
      } else if t.kind == Binary(GreaterThan) {
        if nest == 0 {
          counted := true;
        } else {
          nest1 := nest - 1;
        }
      } else if t.kind == For || t.kind == Next {
        var ret := RunCommand(t.kind);
        match ret {
          case Fine =>
          case Bad => counted := true;
          case Exit => how := Some(Exits);
          case Hung => how := Some(Endless);
        }
      }
    }

    /** get_num_list_elements: the cursor is back behind the list's word when the count is known. */
    method CountElements(rounds: nat) returns (count: nat, ghost mode: Mode, counted: bool, how: Option<Verdict>,
                                               left: nat)
      requires Valid()
      modifies interp, interp.program, interp.vars, interp.evaluator
      ensures Valid() && mode.Counting? && mode.saved == old(interp.program.at) && mode.count == count
      ensures counted ==> left < rounds && how.None?
      ensures var r := Run(rounds, Enc(old(interp.State()), buffer, Counting(old(interp.program.at), 0, 0)));
              if how.Some? then r == Stopped(Enc(interp.State(), buffer, mode), how.value)
              else if !counted then r == Working(Enc(interp.State(), buffer, mode))
              else r == Run(left, Enc(interp.State(), buffer + Header(LIST, mode.count), Emitting))
    {
      hide Header, EncTurn, Offset, AllStorable, OffsetsOf, SavedInside, StoredAll;
      var saved := interp.program.idx;
      ghost var savedAt := interp.program.at;
      var nest, cnt := 0, 0;
      ghost var r := Run(rounds, Enc(interp.State(), buffer, Counting(savedAt, 0, 0)));
      counted, how, left := false, None, rounds;
      while left > 0
        invariant Valid() && savedAt <= |interp.program.tokens| && left <= rounds && !counted && how.None?
        invariant r == Run(left, Enc(interp.State(), buffer, Counting(savedAt, nest, cnt)))
      {
        RunTurn(interp.l, floats, interp.program.tokens, left,
                Enc(interp.State(), buffer, Counting(savedAt, nest, cnt)));
        left := left - 1;
        nest, cnt, counted, how := CountToken(savedAt, nest, cnt);
        if how.Some? {
          return cnt, Counting(savedAt, nest, cnt), false, how, left;
        }
        if counted {
          interp.program.SetIdx(saved, savedAt);
          return cnt, Counting(savedAt, nest, cnt), true, None, left;
        }
      }
      count, mode := cnt, Counting(savedAt, nest, cnt);
    }

    /** One token of the message, with an item its data; at the word of a list the count is due. */
    method EmitToken() returns (list: bool, how: Option<Verdict>)
      requires Valid()
      modifies this, interp, interp.program, interp.vars, interp.evaluator
      ensures Valid()
      ensures var c := EncTurn(interp.l, floats, interp.program.tokens,
                               Enc(old(interp.State()), old(buffer), Emitting));
              if how.Some? then c == Stopped(Enc(interp.State(), buffer, Emitting), how.value)
              else var mode := if list then Counting(interp.program.at, 0, 0) else Emitting;
                   c == Working(Enc(interp.State(), buffer, mode))
    {
      hide Command, CountTurn, Header, EncTurn, ItemData, WordOf,
           Offset, AllStorable, OffsetsOf, SavedInside, StoredAll;
      list := false;
      ghost var e := Enc(interp.State(), buffer, Emitting);
      var t := interp.program.GetToken(interp.vars.env);
      TurnEmits(interp.l, floats, interp.program.tokens, e, Enc(interp.State(), buffer, Emitting), t);
      if t.kind == NullToken || t.kind == Binary(Period) {
        return false, Some(Complete);
      } else if t.kind == LineNumber || t.kind == EndOfLine || IsAngle(t.kind) {
        return false, None;
      }
      match WordOf(t.text) {
        case ListWord =>
          return true, None;
        case ItemWord(f) =>
          var bytes, ok, ended := ReadData(f);
          if !ended {
            return false, Some(Endless);
          }
          buffer := buffer + (Header(Code(f), |bytes|) + bytes);
          return false, if ok then None else Some(Rejected);
        case BadWord =>
          return false, Some(Rejected);
        case NoWord =>
          if t.kind != For && t.kind != Next {
            return false, Some(Rejected);
          }
          var ret := RunCommand(t.kind);
          return false, VerdictOf(ret);
      }
    }

    /** secs_encode behind the message head, for at most `rounds` rounds. */
    method Encode(rounds: nat) returns (ghost mode: Mode, how: Option<Verdict>)
      requires Valid()
      modifies this, interp, interp.program, interp.vars, interp.evaluator
      ensures Valid()
      ensures var r := Run(rounds, Enc(old(interp.State()), [], Emitting));
              var e := Enc(interp.State(), buffer, mode);
              r == if how.None? then Working(e) else Stopped(e, how.value)
    {
      hide Header, EncTurn, Offset, AllStorable, OffsetsOf, SavedInside, StoredAll;
      ghost var r := Run(rounds, Enc(interp.State(), [], Emitting));
      buffer := [];
      var left := rounds;
      mode, how := Emitting, None;
      while left > 0
        invariant Valid() && mode == Emitting && how == None
        invariant r == Run(left, Enc(interp.State(), buffer, Emitting))
        decreases left
      {
        RunTurn(interp.l, floats, interp.program.tokens, left, Enc(interp.State(), buffer, Emitting));
        left := left - 1;
        var list;
        list, how := EmitToken();
        if how.Some? {
          return;
        }
        if list {
          var count, counted;
          count, mode, counted, how, left := CountElements(left);
          if !counted {
            return;
          }
          buffer := buffer + Header(LIST, count);
          mode := Emitting;
        }
      }
    }
  }

  /** What the return of a command makes of the message. */
  function VerdictOf(ret: Ret): Option<Verdict> {
    match ret
    case Fine => None
    case Bad => Some(Rejected)
    case Exit => Some(Exits)
    case Hung => Some(Endless)
  }

  /** The data `d` is what has been read and then `rest`. */
  predicate Rest(d: Data, bytes: seq<byte>, ok: bool, rest: Data) {
    match rest
    case NoEnd(i) => d == NoEnd(i)
    case Data(i, more, ok1) => d == Data(i, bytes + more, ok && ok1)
  }

  lemma RestAll(d: Data)
    ensures Rest(d, [], true, d)
  {
    if d.Data? { assert [] + d.bytes == d.bytes; }
  }

  lemma RestEnds(d: Data, bytes: seq<byte>, ok: bool, rest: Data)
    requires Rest(d, bytes, ok, rest) && (rest.Data? ==> rest.bytes == [])
    ensures d == if rest.Data? then Data(rest.idx, bytes, ok && rest.ok) else rest
  {
    assert bytes + [] == bytes;
  }

  lemma RestStep(d: Data, bytes: seq<byte>, ok: bool, c: Converted, rest: Data)
    requires Rest(d, bytes, ok, Rests(c, rest))
    ensures Rest(d, bytes + c.bytes, ok && c.ok, rest)
  {
    if rest.Data? { assert bytes + (c.bytes + rest.bytes) == (bytes + c.bytes) + rest.bytes; }
  }

  lemma RunTurn(l: Lang, fl: Floats, p: seq<Token>, n: nat, e: Enc)
    requires n > 0 && e.st.idx <= |p| && (e.mode.Counting? ==> e.mode.saved <= |p|)
    ensures var c := EncTurn(l, fl, p, e);
            EncRun(l, fl, p, n, Working(e)) == if c.Stopped? then c else EncRun(l, fl, p, n - 1, c)
  {
    hide EncTurn;
    var c := EncTurn(l, fl, p, e);
    assert c.Stopped? ==> EncRun(l, fl, p, n - 1, c) == c;
  }

  lemma ItemDataCases(l: Lang, fl: Floats, p: seq<Token>, env: Env, f: Format, i: nat)
    requires i <= |p|
    ensures var (text, j) := DataText(l, p, env, f, i);
            var c := Convert(fl, f, text);
            ItemData(l, fl, p, env, f, i) ==
              if RawAt(p, i).kind == Binary(GreaterThan) then Data(i, [], true)
              else if f == Boolean && !c.ok then Data(j, [], false)
              else if i == |p| then NoEnd(i)
              else Rests(c, ItemData(l, fl, p, env, f, j))
  {
    hide Convert, DataText;
  }

  function Rests(c: Converted, d: Data): Data {
    match d
    case NoEnd(k) => NoEnd(k)
    case Data(k, bytes, ok) => Data(k, c.bytes + bytes, c.ok && ok)
  }

  lemma TurnEmits(l: Lang, fl: Floats, p: seq<Token>, e: Enc, e0: Enc, t: Token)
    requires e.st.idx <= |p| && e.mode.Emitting? && t == TokenAt(l.ops.resolve, p, e.st.env, e.st.idx)
    requires e0 == e.(st := e.st.(idx := Past(p, e.st.idx)))
    ensures EncTurn(l, fl, p, e) == EmitTurn(l, fl, p, t, e0)
  {
    hide EmitTurn, CountTurn;
  }

  lemma TurnCounts(l: Lang, fl: Floats, p: seq<Token>, e: Enc, e0: Enc, t: Token)
    requires e.st.idx <= |p| && e.mode.Counting? && e.mode.saved <= |p|
             && t == TokenAt(l.ops.resolve, p, e.st.env, e.st.idx)
    requires e0 == e.(st := e.st.(idx := Past(p, e.st.idx)))
    ensures EncTurn(l, fl, p, e) == CountTurn(l, p, t.kind, e0)
  {
    hide EmitTurn, CountTurn;
  }
}
