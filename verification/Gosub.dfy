/** GOSUB and RETURN (source/gosub.c) on the stored bytes of a program: arguments are queued at the
    call, in a buffer of bytes, and bound at the label, and the way back is kept in the variable
    RETURN.n. */
module Gosubs {
  import opened Tokens
  import opened Bytes
  import opened Numerals
  import ProgramText
  import opened VariableStore

  /** The stored program as it is read during a call, `$` variables replaced by their values; the scope
      at an index; and the bytes that lie in memory behind the one that holds the type of the token
      before an index. `sizeof(type)` bytes from there go on the queue: one and those behind it
      (source/gosub.c:115 and 129, source/program.c:1272-1281). */
  datatype Reader = Reader(codes: ProgramText.Codes, bytes: seq<byte>, scope: nat -> Scope, behind: nat -> seq<byte>)

  /** The type of a token takes `width` bytes. */
  ghost predicate Wide(r: Reader, width: nat) {
    forall j: nat :: 1 + |r.behind(j)| == width
  }

  /** The token at an index and the bytes it takes: the null token, of no bytes, at the end. */
  function Fetch(r: Reader, i: nat): (x: (Token, nat))
    ensures i <= |r.bytes| ==> i + x.1 <= |r.bytes|
    ensures x.0.kind != NullToken ==> x.1 > 0
  {
    if i >= |r.bytes| then (NULL_TOKEN, 0)
    else
      match ProgramText.Decode(r.codes, r.bytes, i)
      case None => (NULL_TOKEN, 0)
      case Some(x) => x
  }

  function TokenIn(r: Reader, i: nat): Token { Fetch(r, i).0 }
  function Behind(r: Reader, i: nat): nat { i + Fetch(r, i).1 }

  // ---------------------------------------------------------------- the queue of arguments

  /** An argument as it is queued: a type, what lies behind it in memory, a length and a text. */
  function Packed(c: ProgramText.Codes, a: Token, behind: seq<byte>): seq<byte> {
    [c.of(a.kind)] + behind + (ProgramText.LittleEndian(|a.text|) + ProgramText.ByteText(a.text))
  }

  /** An argument as it is taken off: one byte for the type, four for the length, the text. None where
      the text runs over the end of the queue; what is read there is undefined. */
  function Take(c: ProgramText.Codes, stack: seq<byte>): (x: Option<(Token, seq<byte>)>)
    ensures x.Some? ==> |x.value.1| < |stack|
  {
    if |stack| < 5 then None
    else
      var n := ProgramText.LengthOf(stack[1..5]);
      if 5 + n > |stack| then None
      else Some((Token(c.kind(stack[0]), ProgramText.CharText(stack[5..5 + n])), stack[5 + n..]))
  }

  /** The arguments that come off a queue, as many as there are. */
  function Drained(c: ProgramText.Codes, stack: seq<byte>, count: nat): (args: seq<Token>)
    ensures |args| <= count
  {
    if count == 0 then []
    else
      match Take(c, stack)
      case None => []
      case Some((a, rest)) => [a] + Drained(c, rest, count - 1)
  }

  /** An identifier is passed by its entry. */
  predicate ByRef(a: Token) { a.kind == Value(Identifier) }

  /** The queue and its number of arguments, the index behind the line, and what the last lookup of an
      identifier gave. Without an end of line the queue grows for ever. */
  datatype Queued = Queued(stack: seq<byte>, count: nat, idx: nat, last: Option<bool>) | Forever

  function First(a: seq<byte>, q: Queued, found: Option<bool>): Queued {
    match q
    case Forever => Forever
    case Queued(stack, count, idx, last) => Queued(a + stack, count + 1, idx, if last.None? then found else last)
  }

  /** source/gosub.c:85-137 */
  function Queue(r: Reader, m: Store, i: nat): (q: Queued)
    requires i <= |r.bytes|
    ensures q.Queued? ==> q.idx <= |r.bytes|
    decreases |r.bytes| - i
  {
    var t, j := TokenIn(r, i), Behind(r, i);
    if t.kind == EndOfLine then Queued([], 0, j, None)
    else if j == i then Forever
    else if t.kind == Comma then Queue(r, m, j)
    else if t.kind == Value(Identifier) then
      (match Get(m, r.scope(j), Ref, t.text)
       case None => Queued([], 0, j, Some(false))
       case Some(key) => First(Packed(r.codes, Token(t.kind, key), r.behind(j)), Queue(r, m, j), Some(true)))
    else First(Packed(r.codes, t, r.behind(j)), Queue(r, m, j), None)
  }

  /** The parameters bound, the index behind them, and whether all went well; or the end of the
      process, or what is undefined: a reference to nothing, an argument beyond the queue. */
  datatype Binding = Bound(m: Store, idx: nat, ok: bool) | Broken

  /** source/gosub.c:155-211 */
  function Bind(r: Reader, m: Store, stack: seq<byte>, count: nat, i: nat): (b: Binding)
    requires i <= |r.bytes|
    ensures b.Bound? ==> b.idx <= |r.bytes|
    decreases |r.bytes| - i
  {
    var t, j := TokenIn(r, i), Behind(r, i);
    if t.kind == EndOfLine then Bound(m, j, count == 0)
    else if t.kind == Comma then Bind(r, m, stack, count, j)
    else if t.kind != Value(Identifier) || count == 0 then Bound(m, j, false)
    else
      match Take(r.codes, stack)
      case None => Broken
      case Some((a, rest)) =>
        match Put(m, r.scope(j), if ByRef(a) then Ref else Local, t.text, a.text)
        case Stored(m1) => Bind(r, m1, rest, count - 1, j)
        case Refused => Bind(r, m, rest, count - 1, j)
        case _ => Broken
  }

  function ReturnName(n: int): string { "RETURN." + SignedDecimal(n) }

  /** The store, the number of open calls and the cursor. */
  datatype Calls = Calls(m: Store, nest: int, idx: nat)
  datatype CallOut = Went(c: Calls, ok: bool) | Lost

  /** cmd_gosub; an unknown label is reported, and the call goes to the start of the program. */
  function Gosub(r: Reader, c: Calls): (o: CallOut)
    requires c.idx <= |r.bytes|
    ensures o.Went? ==> o.c.idx <= |r.bytes|
  {
    var i := Behind(r, c.idx);
    var place := Get(c.m, r.scope(i), VarType.Label, TokenIn(r, c.idx).text);
    match Queue(r, c.m, i)
    case Forever => Lost
    case Queued(stack, count, j, last) =>
      match Put(c.m, r.scope(j), Sc, ReturnName(c.nest + 1), Decimal(j))
      case Stored(m1) =>
        (match Bind(r, m1, stack, count, Start(r, place))
         case Broken => Lost
         case Bound(m2, k, ok) =>
           Went(Calls(m2, c.nest + 1, k), ok && if last.Some? then last.value else place.Some?))
      case _ => Lost
  }

  /** The index a label stands for, as it is stored; beyond the program its end. */
  function Start(r: Reader, place: Option<string>): (i: nat)
    ensures i <= |r.bytes|
  {
    match place
    case None => 0
    case Some(text) => var v := ReadUnsigned(text).value; if v <= |r.bytes| then v else |r.bytes|
  }

  /** cmd_return */
  function Return(r: Reader, c: Calls): (o: CallOut)
    requires c.idx <= |r.bytes|
    ensures o.Went? ==> o.c.idx <= |r.bytes|
  {
    if c.nest < 1 then Went(c, true)
    else
      match Get(c.m, r.scope(c.idx), Sc, ReturnName(c.nest))
      case None => Went(c, false)
      case Some(text) => Went(c.(idx := Start(r, Some(text)), nest := c.nest - 1), true)
  }

  class Subroutines {
    const r: Reader
    const vars: Variables
    var nest: int
    var idx: nat

    ghost predicate Valid()
      reads this, vars
    {
      vars.Valid() && idx <= |r.bytes|
    }

    ghost function State(): Calls
      reads this, vars
    {
      Calls(vars.store, nest, idx)
    }

    constructor (r: Reader, vars: Variables)
      requires vars.Valid()
      ensures Valid() && this.r == r && this.vars == vars && State() == Calls(vars.store, 0, 0)
    {
      this.r, this.vars, nest, idx := r, vars, 0, 0;
    }

    method Next() returns (t: Token)
      requires Valid()
      modifies this`idx
      ensures Valid() && t == TokenIn(r, old(idx)) && idx == Behind(r, old(idx))
    {
      if idx >= |r.bytes| {
        return NULL_TOKEN;
      }
      var ok, num;
      ok, t, num := ProgramText.DecodeToken(r.codes, r.bytes, idx);
      if ok {
        idx := idx + num;
      } else {
        t := NULL_TOKEN;
      }
    }

    /** The loop that queues the arguments; `ended` is false where it would not end. */
    method QueueArguments() returns (stack: seq<byte>, count: nat, last: Option<bool>, ended: bool)
      requires Valid()
      modifies this`idx
      ensures Valid()
      ensures Queue(r, vars.store, old(idx)) == if ended then Queued(stack, count, idx, last) else Forever
    {
      hide Get, Packed, ProgramText.Decode;
      stack, count, last := [], 0, None;
      ghost var q := Queue(r, vars.store, idx);
      while true
        invariant Valid() && q == Joined(stack, count, last, Queue(r, vars.store, idx))
        decreases |r.bytes| - idx
      {
        var from := idx;
        var t := Next();
        if t.kind == EndOfLine {
          assert stack + [] == stack;
          return stack, count, last, true;
        } else if idx == from {
          return stack, count, last, false;
        } else if t.kind == Comma {
        } else if t.kind == Value(Identifier) {
          var key := vars.VariableGet(r.scope(idx), Ref, t.text);
          if key.None? {
            assert stack + [] == stack;
            return stack, count, Some(false), true;
          }
          stack := Append(stack, count, last, Token(t.kind, key.value), Some(true));
          count, last := count + 1, Some(true);
        } else {
          stack := Append(stack, count, last, t, None);
          count := count + 1;
        }
      }
    }

    /** An argument queued: the type and what lies behind it, the length, the text. */
    method Append(stack: seq<byte>, ghost count: nat, ghost last: Option<bool>, a: Token, ghost found: Option<bool>)
        returns (s: seq<byte>)
      requires Valid()
      ensures s == stack + Packed(r.codes, a, r.behind(idx))
      ensures var q := Queue(r, vars.store, idx);
              Joined(stack, count, last, First(Packed(r.codes, a, r.behind(idx)), q, found))
              == Joined(s, count + 1, if found.None? then last else found, q)
    {
      hide Queue, ProgramText.ByteText, ProgramText.LittleEndian;
      s := stack + ([r.codes.of(a.kind)] + r.behind(idx));
      s := s + ProgramText.LittleEndian(|a.text|);
      s := s + ProgramText.ByteText(a.text);
      assert s == stack + Packed(r.codes, a, r.behind(idx));
      JoinedFirst(stack, count, last, Packed(r.codes, a, r.behind(idx)), Queue(r, vars.store, idx), found);
    }

    /** The loop that binds the parameters; `alive` is false where the process ends or follows a
        reference to nothing or leaves the queue. */
    method BindParameters(stack: seq<byte>, count: nat) returns (alive: bool, ok: bool)
      requires Valid()
      modifies this`idx, vars
      ensures Valid()
      ensures match Bind(r, old(vars.store), stack, count, old(idx))
              case Broken => !alive
              case Bound(m, k, good) => alive && ok == good && vars.store == m && idx == k
    {
      hide Put, ProgramText.Decode, ProgramText.LengthOf;
      var left, number := stack, count;
      ghost var b := Bind(r, vars.store, stack, count, idx);
      while true
        invariant Valid() && b == Bind(r, vars.store, left, number, idx)
        decreases |r.bytes| - idx
      {
        var t := Next();
        if t.kind == EndOfLine {
          return true, number == 0;
        } else if t.kind == Comma {
        } else if t.kind != Value(Identifier) || number == 0 {
          return true, false;
        } else {
          // What lies beyond the queue is undefined.
          if |left| < 5 {
            return false, false;
          }
          var kind, length := r.codes.kind(left[0]), ProgramText.LengthOf(left[1..5]);
          if 5 + length > |left| {
            return false, false;
          }
          var text := ProgramText.CharText(left[5..5 + length]);
          left, number := left[5 + length..], number - 1;
          var end := vars.VariablePut(r.scope(idx), if kind == Value(Identifier) then Ref else Local, t.text, text);
          if end == Ended || end == FollowsNothing {
            return false, false;
          }
        }
      }
    }

    /** cmd_gosub */
    method CmdGosub() returns (alive: bool, ok: bool)
      requires Valid()
      modifies this, vars
      ensures Valid()
      ensures match Gosub(r, old(State()))
              case Lost => !alive
              case Went(c, good) => alive && ok == good && State() == c
    {
      hide Put, Get, Queue, Bind, Start, ReturnName, ProgramText.Decode;
      var t := Next();
      var place := vars.VariableGet(r.scope(idx), VarType.Label, t.text);
      var stack, count, last, ended := QueueArguments();
      if !ended {
        return false, false;
      }
      nest := nest + 1;
      var end := vars.VariablePut(r.scope(idx), Sc, ReturnName(nest), Decimal(idx));
      if end != Done {
        return false, false;
      }
      idx := Start(r, place);
      alive, ok := BindParameters(stack, count);
      ok := ok && if last.Some? then last.value else place.Some?;
    }

    /** cmd_return */
    method CmdReturn() returns (ok: bool)
      requires Valid()
      modifies this
      ensures Valid() && Return(r, old(State())) == Went(State(), ok)
    {
      hide Get, ReturnName;
      if nest < 1 {
        return true;
      }
      var text := vars.VariableGet(r.scope(idx), Sc, ReturnName(nest));
      if text.None? {
        return false;
      }
      idx := Start(r, text);
      nest := nest - 1;
      ok := true;
    }
  }

  /** What is queued already, and the rest of the queue. */
  function Joined(stack: seq<byte>, count: nat, last: Option<bool>, q: Queued): Queued {
    match q
    case Forever => Forever
    case Queued(more, number, idx, last1) =>
      Queued(stack + more, count + number, idx, if last1.None? then last else last1)
  }

  lemma JoinedFirst(stack: seq<byte>, count: nat, last: Option<bool>, a: seq<byte>, q: Queued, found: Option<bool>)
    ensures Joined(stack, count, last, First(a, q, found))
         == Joined(stack + a, count + 1, if found.None? then last else found, q)
  {
    if q.Queued? {
      assert stack + (a + q.stack) == (stack + a) + q.stack;
    }
  }
}
