/** The parameters of a subroutine: bound in the order of the arguments, and one given by reference
    stands for the entry the caller's name resolved to. */
module GosubParameters {
  import opened Tokens
  import opened Numerals
  import opened Bytes
  import opened VariableStore
  import opened VariableLaws
  import opened Gosubs
  import opened GosubLaws
  import opened GosubQueue
  import ProgramText

  // ---------------------------------------------------------------- parameters

  /** The names behind a label, commas left out, up to the end of the line. */
  function Names(r: Reader, i: nat): Option<(seq<string>, nat)>
    requires i <= |r.bytes|
    decreases |r.bytes| - i
  {
    var t, j := TokenIn(r, i), Behind(r, i);
    if t.kind == EndOfLine then Some(([], j))
    else if t.kind == Comma then Names(r, j)
    else if t.kind != Value(Identifier) then None
    else
      match Names(r, j)
      case None => None
      case Some((names, end)) => Some(([t.text] + names, end))
  }

  /** A parameter that is new to the callee, or is bound the same way again. */
  predicate Bindable(m: Store, callee: Scope, name: string, a: Token) {
    var key := LabelKey(User, callee, name);
    key in m ==> if ByRef(a) then m[key].t == Ref else m[key].t == Local
  }

  ghost predicate AllBindable(m: Store, callee: Scope, names: seq<string>, args: seq<Token>)
    requires |names| == |args|
  {
    forall k :: 0 <= k < |names| ==> Bindable(m, callee, names[k], args[k])
  }

  /** An entry that is none of the callee's parameters. */
  predicate Elsewhere(callee: Scope, names: seq<string>, key: string) {
    forall k :: 0 <= k < |names| ==> LabelKey(User, callee, names[k]) != key
  }

  function BoundCell(a: Token): Cell { Cell(a.text, if ByRef(a) then Ref else Local) }

  lemma OneBound(m: Store, callee: Scope, name: string, a: Token)
    requires m != map[] && callee.section != "" && Bindable(m, callee, name, a)
    ensures Put(m, callee, if ByRef(a) then Ref else Local, name, a.text)
         == Stored(m[LabelKey(User, callee, name) := BoundCell(a)])
  {
    hide LabelKey, ProgramKey;
    SameKeys(callee, Ref, name);
    SameKeys(callee, Local, name);
  }

  lemma LabelKeysDiffer(callee: Scope, a: string, b: string)
    ensures LabelKey(User, callee, a) == LabelKey(User, callee, b) ==> a == b
  {
    var p := "(" + callee.program + "." + callee.section + ")";
    assert LabelKey(User, callee, a) == p + a && LabelKey(User, callee, b) == p + b;
    assert (p + a)[|p|..] == a && (p + b)[|p|..] == b;
  }

  /** Every parameter has its argument. */
  ghost predicate ParamsBound(m: Store, callee: Scope, names: seq<string>, args: seq<Token>)
    requires |names| == |args|
  {
    forall k :: 0 <= k < |names| ==>
      LabelKey(User, callee, names[k]) in m && m[LabelKey(User, callee, names[k])] == BoundCell(args[k])
  }

  /** Nothing but the parameters has changed. */
  ghost predicate OnlyParams(m: Store, m1: Store, callee: Scope, names: seq<string>) {
    forall key :: Elsewhere(callee, names, key) ==> (key in m1 <==> key in m) && (key in m ==> m1[key] == m[key])
  }

  predicate Distinct(names: seq<string>) {
    forall j, k :: 0 <= j < k < |names| ==> names[j] != names[k]
  }

  /** The first parameter bound, the others are still as they were. */
  lemma FirstBound(m: Store, callee: Scope, names: seq<string>, args: seq<Token>)
    requires |names| == |args| > 0 && Distinct(names) && AllBindable(m, callee, names, args)
    ensures var own := LabelKey(User, callee, names[0]);
            var m1 := m[own := BoundCell(args[0])];
            Distinct(names[1..]) && AllBindable(m1, callee, names[1..], args[1..]) && Elsewhere(callee, names[1..], own)
  {
    hide LabelKey;
    var own, rest := LabelKey(User, callee, names[0]), names[1..];
    forall k | 0 <= k < |rest|
      ensures Bindable(m[own := BoundCell(args[0])], callee, rest[k], args[1..][k])
              && LabelKey(User, callee, rest[k]) != own
    {
      assert Bindable(m, callee, names[k + 1], args[k + 1]);
      LabelKeysDiffer(callee, rest[k], names[0]);
    }
  }

  lemma RestBound(m: Store, m2: Store, callee: Scope, names: seq<string>, args: seq<Token>)
    requires |names| == |args| > 0
    requires var own := LabelKey(User, callee, names[0]);
             var m1 := m[own := BoundCell(args[0])];
             && ParamsBound(m2, callee, names[1..], args[1..]) && OnlyParams(m1, m2, callee, names[1..])
             && Elsewhere(callee, names[1..], own)
    ensures ParamsBound(m2, callee, names, args) && OnlyParams(m, m2, callee, names)
  {
    hide LabelKey, BoundCell;
    forall k | 0 <= k < |names|
      ensures LabelKey(User, callee, names[k]) in m2 && m2[LabelKey(User, callee, names[k])] == BoundCell(args[k])
    {
      if k > 0 { assert names[k] == names[1..][k - 1] && args[k] == args[1..][k - 1]; }
    }
    forall key | Elsewhere(callee, names, key) ensures (key in m2 <==> key in m) && (key in m ==> m2[key] == m[key]) {
      assert LabelKey(User, callee, names[0]) != key;
      assert Elsewhere(callee, names[1..], key) by {
        forall k | 0 <= k < |names[1..]| ensures LabelKey(User, callee, names[1..][k]) != key {
          assert names[k + 1] == names[1..][k];
        }
      }
    }
  }

  /** Where a type takes one byte, parameters of different names are bound to the arguments of the
      queue in order, and nothing else changes. */
  lemma {:induction false} BindsInOrder(r: Reader, m: Store, args: seq<Token>, i: nat, callee: Scope,
                                        names: seq<string>, end: nat)
    requires i <= |r.bytes| && Names(r, i) == Some((names, end)) && |names| == |args| && AllPassable(r.codes, args)
    requires m != map[] && callee.section != "" && forall j: nat :: i < j <= end ==> r.scope(j) == callee
    requires Distinct(names) && AllBindable(m, callee, names, args)
    ensures var b := Bind(r, m, PackedAll(r.codes, args, []), |args|, i);
            && b.Bound? && b.ok && b.idx == end
            && ParamsBound(b.m, callee, names, args) && OnlyParams(m, b.m, callee, names)
    decreases |r.bytes| - i
  {
    hide LabelKey, Put, Distinct, AllBindable, ParamsBound, OnlyParams, Elsewhere, Fetch, Take, Packed, Passable;
    var t, j := TokenIn(r, i), Behind(r, i);
    if t.kind == EndOfLine {
      NoParams(m, callee);
    } else if t.kind == Comma {
      BindsInOrder(r, m, args, j, callee, names, end);
    } else {
      TakesPacked(r.codes, args[0], PackedAll(r.codes, args[1..], []));
      assert Bindable(m, callee, names[0], args[0]) by { FirstBindable(m, callee, names, args); }
      OneBound(m, callee, t.text, args[0]);
      var m1 := m[LabelKey(User, callee, t.text) := BoundCell(args[0])];
      FirstBound(m, callee, names, args);
      NamesForward(r, j);
      BindsInOrder(r, m1, args[1..], j, callee, names[1..], end);
      RestBound(m, Bind(r, m1, PackedAll(r.codes, args[1..], []), |args| - 1, j).m, callee, names, args);
    }
  }

  lemma NoParams(m: Store, callee: Scope)
    ensures ParamsBound(m, callee, [], []) && OnlyParams(m, m, callee, [])
  {
  }

  lemma FirstBindable(m: Store, callee: Scope, names: seq<string>, args: seq<Token>)
    requires |names| == |args| > 0 && AllBindable(m, callee, names, args)
    ensures Bindable(m, callee, names[0], args[0])
  {
  }

  lemma {:induction false} NamesForward(r: Reader, i: nat)
    requires i <= |r.bytes|
    ensures Names(r, i).Some? ==> Names(r, i).value.1 > i
    decreases |r.bytes| - i
  {
    hide Fetch;
    if Behind(r, i) > i { NamesForward(r, Behind(r, i)); }
  }

  // ---------------------------------------------------------------- the line of the call

  /** The arguments on a line, commas left out, and the index behind the line. */
  function Words(r: Reader, i: nat): Option<(seq<Token>, nat)>
    requires i <= |r.bytes|
    decreases |r.bytes| - i
  {
    var t, j := TokenIn(r, i), Behind(r, i);
    if t.kind == EndOfLine then Some(([], j))
    else if j == i then None
    else
      match Words(r, j)
      case None => None
      case Some((ts, end)) => Some((if t.kind == Comma then ts else [t] + ts, end))
  }

  /** An identifier must be there; anything else is passed as it stands. */
  predicate Resolves(m: Store, caller: Scope, t: Token) {
    t.kind == Value(Identifier) ==> Get(m, caller, Ref, t.text).Some?
  }

  predicate AllResolve(m: Store, caller: Scope, ts: seq<Token>) {
    forall k :: 0 <= k < |ts| ==> Resolves(m, caller, ts[k])
  }

  function ArgOf(m: Store, caller: Scope, t: Token): Token {
    var key := Get(m, caller, Ref, t.text);
    if t.kind == Value(Identifier) && key.Some? then Token(t.kind, key.value) else t
  }

  function ArgsOf(m: Store, caller: Scope, ts: seq<Token>): (a: seq<Token>)
    ensures |a| == |ts| && forall k :: 0 <= k < |ts| ==> a[k] == ArgOf(m, caller, ts[k])
  {
    seq(|ts|, k requires 0 <= k < |ts| => ArgOf(m, caller, ts[k]))
  }

  lemma {:induction false} WordsForward(r: Reader, i: nat)
    requires i <= |r.bytes|
    ensures Words(r, i).Some? ==> i < Words(r, i).value.1 <= |r.bytes|
    decreases |r.bytes| - i
  {
    hide Fetch;
    if Behind(r, i) > i { WordsForward(r, Behind(r, i)); }
  }

  /** The queue of a line has as many arguments as the line, and where a type takes one byte it holds an
      entry for every identifier and the text of every other argument. */
  lemma {:induction false} QueuesLine(r: Reader, m: Store, i: nat, caller: Scope, ts: seq<Token>, end: nat)
    requires i <= |r.bytes| && Words(r, i) == Some((ts, end)) && AllResolve(m, caller, ts)
    requires forall j: nat :: i < j <= end ==> r.scope(j) == caller
    ensures var q := Queue(r, m, i);
            && q.Queued? && q.count == |ts| && q.idx == end && q.last != Some(false)
            && (Wide(r, 1) || ts == [] ==> q.stack == PackedAll(r.codes, ArgsOf(m, caller, ts), []))
    decreases |r.bytes| - i
  {
    hide Get, Fetch, Packed;
    assert Wide(r, 1) ==> r.behind(Behind(r, i)) == [];
    var t, j := TokenIn(r, i), Behind(r, i);
    WordsForward(r, i);
    if t.kind == EndOfLine {
      assert ArgsOf(m, caller, []) == [];
    } else {
      WordsForward(r, j);
      var rest := Words(r, j).value.0;
      assert t.kind != Comma ==> ts == [t] + rest;
      assert AllResolve(m, caller, rest) by { RestResolves(m, caller, ts, rest); }
      QueuesLine(r, m, j, caller, rest, end);
      if t.kind != Comma {
        assert Resolves(m, caller, ts[0]);
        var args := ArgsOf(m, caller, ts);
        assert args == [ArgOf(m, caller, t)] + ArgsOf(m, caller, rest);
        assert args[1..] == ArgsOf(m, caller, rest);
      }
    }
  }

  /** However wide a type is, the first argument of the line stands first. */
  lemma {:induction false} QueuesFirst(r: Reader, m: Store, i: nat, caller: Scope, ts: seq<Token>, end: nat)
      returns (j: nat, rest: seq<byte>)
    requires i <= |r.bytes| && Words(r, i) == Some((ts, end)) && AllResolve(m, caller, ts) && ts != []
    requires forall j: nat :: i < j <= end ==> r.scope(j) == caller
    ensures var q := Queue(r, m, i);
            q.Queued? && q.stack == Packed(r.codes, ArgOf(m, caller, ts[0]), r.behind(j)) + rest
    decreases |r.bytes| - i
  {
    hide Get, Fetch, Packed;
    var t := TokenIn(r, i);
    j := Behind(r, i);
    QueuesLine(r, m, i, caller, ts, end);
    WordsForward(r, i);
    WordsForward(r, j);
    if t.kind == Comma {
      j, rest := QueuesFirst(r, m, j, caller, ts, end);
    } else {
      assert Resolves(m, caller, ts[0]);
      rest := Queue(r, m, j).stack;
    }
  }

  lemma RestResolves(m: Store, caller: Scope, ts: seq<Token>, rest: seq<Token>)
    requires AllResolve(m, caller, ts) && (rest == ts || (ts != [] && rest == ts[1..]))
    ensures AllResolve(m, caller, rest)
  {
    hide Resolves;
  }

  // ---------------------------------------------------------------- the call

  /** RETURN.n is free, or a variable of the interpreter; a label may have the name. */
  predicate ReturnFree(m: Store, program: string, n: int) {
    var key := ProgramKey(Sc, program, ReturnName(n));
    key in m ==> m[key].t == Sc
  }

  /** Behind the put of RETURN.n the user's entries are as before. */
  lemma ReturnPut(m: Store, sc: Scope, n: int, text: string)
    requires OwnOk(m, sc.program) && ReturnFree(m, sc.program, n)
    ensures var out := Put(m, sc, Sc, ReturnName(n), text);
            && out.Stored? && out.m != map[]
            && forall key :: !Own(key) ==> (key in out.m <==> key in m) && (key in m ==> out.m[key] == m[key])
  {
    hide ProgramKey, LabelKey, PutKey, ReturnName;
    OwnPutKey(m, sc, Sc, ReturnName(n));
    OwnKeys(sc.program, ReturnName(n));
    var key := ProgramKey(Sc, sc.program, ReturnName(n));
    assert key in Put(m, sc, Sc, ReturnName(n), text).m;
  }

  /** A call: its line, the place of its label and the parameters there. */
  datatype Call = Call(caller: Scope, ts: seq<Token>, line: nat, callee: Scope, names: seq<string>, end: nat)

  /** A call line in one scope whose identifiers are all there, and a label with as many parameters of
      different names, each new to the label or bound the same way again; the arguments fit the queue. */
  ghost predicate Callable(r: Reader, c: Calls, x: Call) {
    && c.idx <= |r.bytes| && Words(r, Behind(r, c.idx)) == Some((x.ts, x.line)) && AllResolve(c.m, x.caller, x.ts)
    && (forall j: nat :: Behind(r, c.idx) <= j <= x.line ==> r.scope(j) == x.caller)
    && var place := Get(c.m, x.caller, VarType.Label, TokenIn(r, c.idx).text);
    && place.Some? && Names(r, Start(r, place)) == Some((x.names, x.end)) && x.callee.section != ""
    && (forall j: nat :: Start(r, place) < j <= x.end ==> r.scope(j) == x.callee)
    && |x.names| == |x.ts| && Distinct(x.names) && AllPassable(r.codes, ArgsOf(c.m, x.caller, x.ts))
    && AllBindable(c.m, x.callee, x.names, ArgsOf(c.m, x.caller, x.ts))
    && OwnOk(c.m, x.caller.program) && ReturnFree(c.m, x.caller.program, c.nest + 1)
  }

  lemma BindableStill(m: Store, m1: Store, callee: Scope, names: seq<string>, args: seq<Token>)
    requires |names| == |args| && AllBindable(m, callee, names, args)
    requires forall key :: !Own(key) ==> (key in m1 <==> key in m) && (key in m ==> m1[key] == m[key])
    ensures AllBindable(m1, callee, names, args)
  {
    hide LabelKey;
    forall k | 0 <= k < |names| ensures Bindable(m1, callee, names[k], args[k]) {
      assert Bindable(m, callee, names[k], args[k]);
      UserKeys(User, callee, names[k]);
    }
  }

  /** Where a type takes one byte, or nothing is passed, the call goes to the end of the line of
      parameters, with every parameter bound, and changes nothing else of the user's. */
  lemma CallBinds(r: Reader, c: Calls, x: Call)
    requires Callable(r, c, x) && (Wide(r, 1) || x.ts == [])
    ensures var o, args := Gosub(r, c), ArgsOf(c.m, x.caller, x.ts);
            && o.Went? && o.ok && o.c.nest == c.nest + 1 && o.c.idx == x.end
            && ParamsBound(o.c.m, x.callee, x.names, args)
            && forall key :: !Own(key) && Elsewhere(x.callee, x.names, key) ==>
                 (key in o.c.m <==> key in c.m) && (key in c.m ==> o.c.m[key] == c.m[key])
  {
    hide Put, Get, LabelKey, Fetch, Start, AllBindable, ParamsBound, Elsewhere, Distinct, OwnOk, ReturnFree, Bindable,
         ReturnName, Decimal, AllResolve, Wide, AllPassable, PackedAll;
    var i, args := Behind(r, c.idx), ArgsOf(c.m, x.caller, x.ts);
    WordsForward(r, i);
    QueuesLine(r, c.m, i, x.caller, x.ts, x.line);
    ReturnPut(c.m, x.caller, c.nest + 1, Decimal(x.line));
    var m0 := Put(c.m, x.caller, Sc, ReturnName(c.nest + 1), Decimal(x.line)).m;
    BindableStill(c.m, m0, x.callee, x.names, args);
    var start := Start(r, Get(c.m, x.caller, VarType.Label, TokenIn(r, c.idx).text));
    BindsInOrder(r, m0, args, start, x.callee, x.names, x.end);
    assert OnlyParams(m0, Bind(r, m0, PackedAll(r.codes, args, []), |args|, start).m, x.callee, x.names);
  }

  /** A parameter whose argument runs over the end of the queue. */
  lemma {:induction false} BindLost(r: Reader, m: Store, stack: seq<byte>, count: nat, i: nat)
    requires i <= |r.bytes| && Names(r, i).Some? && Names(r, i).value.0 != [] && count > 0 && Take(r.codes, stack).None?
    ensures Bind(r, m, stack, count, i) == Broken
    decreases |r.bytes| - i
  {
    hide Fetch, Take;
    if TokenIn(r, i).kind == Comma { BindLost(r, m, stack, count, Behind(r, i)); }
  }

  /** A call whose first argument has a text of 1 to 255 bytes, or of any length that is no multiple of
      256: it goes exactly where a type takes one byte. With types of four bytes, as the compilers of
      CMakeLists.txt have them, it reads behind the end of its queue. */
  lemma CallGoes(r: Reader, c: Calls, x: Call, width: nat)
    requires Callable(r, c, x) && Wide(r, width) && (width == 1 || width == 4) && x.ts != []
    requires |ArgOf(c.m, x.caller, x.ts[0]).text| % 256 != 0 && Queue(r, c.m, Behind(r, c.idx)).Queued?
             && |Queue(r, c.m, Behind(r, c.idx)).stack| <= 0x100_0000
    ensures Gosub(r, c).Went? <==> width == 1
  {
    hide Put, Get, LabelKey, Fetch, Start, AllBindable, Elsewhere, Distinct, OwnOk, ReturnFree, ReturnName, Decimal,
         AllResolve, Wide, AllPassable, Packed, Bind, Queue, Names;
    if width == 1 {
      CallBinds(r, c, x);
    } else {
      var i := Behind(r, c.idx);
      WordsForward(r, i);
      QueuesLine(r, c.m, i, x.caller, x.ts, x.line);
      ReturnPut(c.m, x.caller, c.nest + 1, Decimal(x.line));
      var j, rest := QueuesFirst(r, c.m, i, x.caller, x.ts, x.line);
      FirstLost(r, ArgOf(c.m, x.caller, x.ts[0]), j, rest);
      BindLost(r, Put(c.m, x.caller, Sc, ReturnName(c.nest + 1), Decimal(x.line)).m, Queue(r, c.m, i).stack, |x.ts|,
               Start(r, Get(c.m, x.caller, VarType.Label, TokenIn(r, c.idx).text)));
    }
  }

  lemma FirstLost(r: Reader, a: Token, j: nat, rest: seq<byte>)
    requires Wide(r, 4) && |a.text| % 256 != 0 && |Packed(r.codes, a, r.behind(j)) + rest| <= 0x100_0000
    ensures Take(r.codes, Packed(r.codes, a, r.behind(j)) + rest).None?
  {
    hide Packed, ProgramText.LengthOf;
    LengthShifted(r.codes, a, r.behind(j), rest);
    assert Power(256, 3) == 0x100_0000;
  }

  /** The entry a name was resolved to, when it is no reference, is an entry of the user and stays one
      of its type, be it that a parameter of the same name has come to stand there. */
  lemma EntryStays(m: Store, m1: Store, caller: Scope, name: string, key: string, callee: Scope, names: seq<string>,
                   args: seq<Token>)
    requires Get(m, caller, Ref, name) == Some(key) && key in m && m[key].t != Ref
    requires |names| == |args| && AllBindable(m, callee, names, args) && ParamsBound(m1, callee, names, args)
    requires forall k :: !Own(k) && Elsewhere(callee, names, k) ==> (k in m1 <==> k in m) && (k in m ==> m1[k] == m[k])
    ensures !Own(key) && key in m1 && m1[key].t == m[key].t
    ensures Elsewhere(callee, names, key) ==> m1[key] == m[key]
  {
    hide LabelKey, ProgramKey;
    UserKeys(Ref, caller, name);
    if !Elsewhere(callee, names, key) {
      var j :| 0 <= j < |names| && LabelKey(User, callee, names[j]) == key;
      assert Bindable(m, callee, names[j], args[j]);
    }
  }

  /** A parameter that refers to an entry: reads and assignments go there. */
  lemma ThroughReference(m: Store, callee: Scope, name: string, key: string, value: string)
    requires callee.section != "" && LabelKey(User, callee, name) in m
             && m[LabelKey(User, callee, name)] == Cell(key, Ref)
    requires key in m && m[key].t != Ref
    ensures Get(m, callee, User, name) == Some(m[key].value)
    ensures var m1 := m[key := m[key].(value := value)];
            Put(m, callee, User, name, value) == Stored(m1) && Get(m1, callee, User, name) == Some(value)
  {
    hide LabelKey, ProgramKey;
  }

  /** An identifier passed to GOSUB, a type taking one byte. The call goes and is no error; in the callee, reading the
      parameter gives the entry the caller's identifier resolved to, whose value is the one the caller
      reads, and assigning to it changes that entry alone. The entry has kept its value, unless it is
      itself the entry of another parameter of the callee. */
  lemma PassedByReference(r: Reader, c: Calls, x: Call, k: nat, key: string, value: string)
    requires Callable(r, c, x) && Wide(r, 1) && k < |x.ts| && x.ts[k].kind == Value(Identifier)
    requires Get(c.m, x.caller, Ref, x.ts[k].text) == Some(key) && (key in c.m ==> c.m[key].t != Ref)
    ensures key in c.m && Get(c.m, x.caller, User, x.ts[k].text) == Some(c.m[key].value)
    ensures var o := Gosub(r, c);
            && o.Went? && o.ok && o.c.nest == c.nest + 1 && o.c.idx == x.end
            && var m1 := o.c.m;
            && key in m1 && m1[key].t == c.m[key].t && (Elsewhere(x.callee, x.names, key) ==> m1[key] == c.m[key])
            && Get(m1, x.callee, User, x.names[k]) == Some(m1[key].value)
            && var m2 := m1[key := m1[key].(value := value)];
            && Put(m1, x.callee, User, x.names[k], value) == Stored(m2)
            && Get(m2, x.callee, User, x.names[k]) == Some(value)
  {
    hide LabelKey, ProgramKey, Gosub, Get, Put, Fetch, Start, Names, Words, OwnOk, ReturnFree, AllResolve, Distinct,
         Elsewhere, AllBindable;
    CallerEntry(c.m, x.caller, x.ts[k].text, key);
    CallBinds(r, c, x);
    var m1, args := Gosub(r, c).c.m, ArgsOf(c.m, x.caller, x.ts);
    EntryStays(c.m, m1, x.caller, x.ts[k].text, key, x.callee, x.names, args);
    assert args[k] == Token(Value(Identifier), key);
    assert m1[LabelKey(User, x.callee, x.names[k])] == BoundCell(args[k]);
    ThroughReference(m1, x.callee, x.names[k], key, value);
  }

  /** None of the callee's parameters has the caller's name as its own, in the label or outside. */
  predicate Unhidden(x: Call, name: string) {
    Elsewhere(x.callee, x.names, LabelKey(User, x.caller, name))
    && Elsewhere(x.callee, x.names, ProgramKey(User, x.caller.program, name))
  }

  /** Back in the caller, its identifier has the value the callee assigned to the parameter. */
  lemma SeenBehindCall(r: Reader, c: Calls, x: Call, k: nat, key: string, value: string)
    requires c.idx <= |r.bytes| && Callable(r, c, x) && Wide(r, 1) && k < |x.ts| && x.ts[k].kind == Value(Identifier)
    requires Get(c.m, x.caller, Ref, x.ts[k].text) == Some(key) && (key in c.m ==> c.m[key].t != Ref)
    requires Unhidden(x, x.ts[k].text)
    ensures var o := Gosub(r, c);
            && o.Went? && key in o.c.m
            && Get(o.c.m[key := o.c.m[key].(value := value)], x.caller, User, x.ts[k].text) == Some(value)
  {
    hide Gosub, Get, Put, Callable, LabelKey, ProgramKey, Elsewhere;
    var name := x.ts[k].text;
    PassedByReference(r, c, x, k, key, value);
    CallBinds(r, c, x);
    UserKeys(User, x.caller, name);
    NameStill(c.m, Gosub(r, c).c.m, x.caller, name, key, value);
  }

  /** A name resolves as before where neither its entry in the label nor that outside has changed. */
  lemma NameStill(m: Store, m1: Store, caller: Scope, name: string, key: string, value: string)
    requires Get(m, caller, Ref, name) == Some(key) && key in m1 && m1[key].t != Ref
    requires LabelKey(User, caller, name) in m1 <==> LabelKey(User, caller, name) in m
    requires ProgramKey(User, caller.program, name) in m1 <==> ProgramKey(User, caller.program, name) in m
    ensures Get(m1[key := m1[key].(value := value)], caller, User, name) == Some(value)
  {
    hide LabelKey, ProgramKey;
    SameKeys(caller, Ref, name);
  }

  // ---------------------------------------------------------------- the errors of a call

  /** As many parameters as arguments, or an error: too few and too many. */
  lemma {:induction false} BindCounts(r: Reader, m: Store, stack: seq<byte>, count: nat, i: nat)
    requires i <= |r.bytes| && Names(r, i).Some?
    ensures var b := Bind(r, m, stack, count, i); b.Bound? ==> (b.ok <==> |Names(r, i).value.0| == count)
    decreases |r.bytes| - i
  {
    hide Put, Fetch, Take;
    var t, j := TokenIn(r, i), Behind(r, i);
    if t.kind == Comma {
      BindCounts(r, m, stack, count, j);
    } else if t.kind == Value(Identifier) && count > 0 && Take(r.codes, stack).Some? {
      var (a, rest) := Take(r.codes, stack).value;
      var out := Put(m, r.scope(j), if ByRef(a) then Ref else Local, t.text, a.text);
      BindCounts(r, if out.Stored? then out.m else m, rest, count - 1, j);
    }
  }

  /** A line of other tokens than the names of parameters is an error. */
  lemma {:induction false} NoNamesError(r: Reader, m: Store, stack: seq<byte>, count: nat, i: nat)
    requires i <= |r.bytes| && Names(r, i).None?
    ensures var b := Bind(r, m, stack, count, i); b.Bound? ==> !b.ok
    decreases |r.bytes| - i
  {
    hide Put, Fetch, Take;
    var t, j := TokenIn(r, i), Behind(r, i);
    if t.kind == Comma {
      NoNamesError(r, m, stack, count, j);
    } else if t.kind == Value(Identifier) && count > 0 && Take(r.codes, stack).Some? {
      var (a, rest) := Take(r.codes, stack).value;
      var out := Put(m, r.scope(j), if ByRef(a) then Ref else Local, t.text, a.text);
      NoNamesError(r, if out.Stored? then out.m else m, rest, count - 1, j);
    }
  }

  predicate PassesIdentifier(ts: seq<Token>) { exists k :: 0 <= k < |ts| && ts[k].kind == Value(Identifier) }

  /** The status that the arguments of a line leave: of the last lookup of an identifier, if there is one. */
  lemma {:induction false} QueueStatus(r: Reader, m: Store, i: nat, caller: Scope, ts: seq<Token>, end: nat)
    requires i <= |r.bytes| && Words(r, i) == Some((ts, end)) && forall j: nat :: i < j <= end ==> r.scope(j) == caller
    ensures var q := Queue(r, m, i);
            && q.Queued?
            && q.last == (if !AllResolve(m, caller, ts) then Some(false)
                          else if PassesIdentifier(ts) then Some(true) else None)
            && (AllResolve(m, caller, ts) ==> q.count == |ts| && q.idx == end)
    decreases |r.bytes| - i
  {
    hide Get, Fetch, Packed;
    var t, j := TokenIn(r, i), Behind(r, i);
    WordsForward(r, i);
    if t.kind != EndOfLine {
      WordsForward(r, j);
      var rest := Words(r, j).value.0;
      assert t.kind != Comma ==> ts == [t] + rest;
      QueueStatus(r, m, j, caller, rest, end);
      if t.kind != Comma {
        StatusThen(m, caller, t, rest);
      }
    }
  }

  lemma StatusThen(m: Store, caller: Scope, t: Token, rest: seq<Token>)
    ensures AllResolve(m, caller, [t] + rest) <==> Resolves(m, caller, t) && AllResolve(m, caller, rest)
    ensures PassesIdentifier([t] + rest) <==> t.kind == Value(Identifier) || PassesIdentifier(rest)
  {
    hide Resolves;
    var ts := [t] + rest;
    assert ts[0] == t && ts[1..] == rest;
    if AllResolve(m, caller, ts) {
      assert forall k :: 0 <= k < |rest| ==> rest[k] == ts[k + 1];
    }
    if PassesIdentifier(rest) {
      var k :| 0 <= k < |rest| && rest[k].kind == Value(Identifier);
      assert ts[k + 1].kind == Value(Identifier);
    }
    if PassesIdentifier(ts) {
      var k :| 0 <= k < |ts| && ts[k].kind == Value(Identifier);
      assert k == 0 || rest[k - 1].kind == Value(Identifier);
    }
  }

  /** A call is no error exactly when its identifiers are all there, it passes as many arguments as the
      label has parameters, and its label is known or an identifier is passed: the lookup of an argument
      takes the place of the error of the label, and the call goes to the start of the program. */
  lemma CallErrors(r: Reader, c: Calls, caller: Scope, ts: seq<Token>, line: nat)
    requires c.idx <= |r.bytes| && Words(r, Behind(r, c.idx)) == Some((ts, line)) && Gosub(r, c).Went?
    requires forall j: nat :: Behind(r, c.idx) <= j <= line ==> r.scope(j) == caller
    ensures var place := Get(c.m, caller, VarType.Label, TokenIn(r, c.idx).text);
            var names := Names(r, Start(r, place));
            Gosub(r, c).ok <==> && AllResolve(c.m, caller, ts) && names.Some? && |names.value.0| == |ts|
                                && (place.Some? || PassesIdentifier(ts))
  {
    hide Put, Get, Fetch, Start, AllResolve, ReturnName, Decimal, Bind, Queue, Names, PassesIdentifier;
    var i := Behind(r, c.idx);
    WordsForward(r, i);
    QueueStatus(r, c.m, i, caller, ts, line);
    var q := Queue(r, c.m, i);
    var start := Start(r, Get(c.m, caller, VarType.Label, TokenIn(r, c.idx).text));
    var m1 := Put(c.m, r.scope(q.idx), Sc, ReturnName(c.nest + 1), Decimal(q.idx)).m;
    if Names(r, start).Some? {
      BindCounts(r, m1, q.stack, q.count, start);
    } else {
      NoNamesError(r, m1, q.stack, q.count, start);
    }
  }
}
