/** RETURN goes back to the GOSUB that is still open last, whatever the subroutines store in between. */
module GosubLaws {
  import opened Tokens
  import opened Numerals
  import opened Bytes
  import opened Machine
  import opened VariableStore
  import opened VariableLaws
  import opened Gosubs

  // ---------------------------------------------------------------- the interpreter's own entries

  predicate Own(key: string) { key != "" && key[0] == '#' }

  /** References lead to entries of the user that are no references. */
  predicate RefsOk(m: Store) {
    forall k :: k in m && m[k].t == Ref ==> m[k].value in m && m[m[k].value].t != Ref && !Own(m[k].value)
  }

  /** The interpreter's own entries stand at the level of the program and are of its own types. */
  ghost predicate OwnOk(m: Store, program: string) {
    && (forall k :: k in m && Own(k) ==> m[k].t == Sc || m[k].t == VarType.Label)
    && (forall section: string, name: string :: LabelKey(Sc, Scope(program, section), name) !in m)
  }

  function ReturnKey(program: string, n: int): string { ProgramKey(Sc, program, ReturnName(n)) }

  predicate Saved(m: Store, program: string, n: int, idx: nat) {
    ReturnKey(program, n) in m && m[ReturnKey(program, n)] == Cell(Decimal(idx), Sc)
  }

  ghost predicate StackOk(m: Store, program: string, stack: seq<nat>) {
    forall k {:trigger stack[k]} :: 0 <= k < |stack| ==> Saved(m, program, k + 1, stack[k])
  }

  ghost predicate StoreOk(m: Store, program: string, stack: seq<nat>) {
    RefsOk(m) && OwnOk(m, program) && StackOk(m, program, stack)
  }

  // ---------------------------------------------------------------- names

  lemma {:induction false} DecimalInjective(a: nat, b: nat)
    ensures Decimal(a) == Decimal(b) ==> a == b
  {
    ValueOfDecimal(a);
    ValueOfDecimal(b);
  }

  lemma ReturnKeysDiffer(program: string, a: nat, b: nat)
    requires a != b
    ensures ReturnKey(program, a) != ReturnKey(program, b)
  {
    hide Decimal;
    DecimalInjective(a, b);
    var p := "#(" + program + ")RETURN.";
    assert ReturnKey(program, a) == p + Decimal(a) && ReturnKey(program, b) == p + Decimal(b);
    assert (p + Decimal(a))[|p|..] == Decimal(a) && (p + Decimal(b))[|p|..] == Decimal(b);
  }

  lemma UserKeys(t: VarType, sc: Scope, name: string)
    requires t != Sc && t != VarType.Label
    ensures !Own(LabelKey(t, sc, name)) && forall p :: !Own(ProgramKey(t, p, name))
  {
  }

  // ---------------------------------------------------------------- puts of the user

  /** An ordinary put, or the binding of a reference to an entry that is none. */
  predicate UserPut(m: Store, t: VarType, value: string) {
    && t != Sc && t != VarType.Label
    && (t == Ref ==> value in m && m[value].t != Ref && !Own(value))
  }

  lemma UserPutOwn(m: Store, sc: Scope, t: VarType, name: string, value: string)
    requires UserPut(m, t, value) && RefsOk(m) && Put(m, sc, t, name, value).Stored?
    ensures var m1 := Put(m, sc, t, name, value).m;
            && RefsOk(m1) && (forall k :: Own(k) ==> (k in m1 <==> k in m) && (k in m ==> m1[k] == m[k]))
  {
    hide LabelKey, ProgramKey;
    UserKeys(t, sc, name);
    assert !Own(PutKey(m, sc, t, name));
  }

  lemma OwnSame(m: Store, m1: Store, program: string, stack: seq<nat>)
    requires StoreOk(m, program, stack) && RefsOk(m1)
    requires forall k :: Own(k) ==> (k in m1 <==> k in m) && (k in m ==> m1[k] == m[k])
    ensures StoreOk(m1, program, stack)
  {
    forall section: string, name: string ensures LabelKey(Sc, Scope(program, section), name) !in m1 {
      assert Own(LabelKey(Sc, Scope(program, section), name));
    }
    forall k | 0 <= k < |stack| ensures Saved(m1, program, k + 1, stack[k]) {
      assert Own(ReturnKey(program, k + 1));
      assert Saved(m, program, k + 1, stack[k]);
    }
  }

  lemma UserPutKeeps(m: Store, sc: Scope, t: VarType, name: string, value: string, program: string, stack: seq<nat>)
    requires UserPut(m, t, value) && StoreOk(m, program, stack) && Put(m, sc, t, name, value).Stored?
    ensures StoreOk(Put(m, sc, t, name, value).m, program, stack)
  {
    hide Put, OwnOk, StackOk;
    UserPutOwn(m, sc, t, name, value);
    OwnSame(m, Put(m, sc, t, name, value).m, program, stack);
  }

  // ---------------------------------------------------------------- puts of the interpreter

  /** An entry of the interpreter's own is put at the level of the program. */
  lemma OwnPutKey(m: Store, sc: Scope, t: VarType, name: string)
    requires OwnOk(m, sc.program) && (t == Sc || t == VarType.Label)
    ensures PutKey(m, sc, t, name) == ProgramKey(Sc, sc.program, name)
  {
    assert LabelKey(t, sc, name) == LabelKey(Sc, Scope(sc.program, sc.section), name);
    assert ProgramKey(t, sc.program, name) == ProgramKey(Sc, sc.program, name);
  }

  lemma OwnPutKeeps(m: Store, sc: Scope, t: VarType, name: string, value: string, stack: seq<nat>)
    requires (t == Sc || t == VarType.Label) && StoreOk(m, sc.program, stack) && Put(m, sc, t, name, value).Stored?
    requires forall k :: 0 < k <= |stack| ==> ProgramKey(Sc, sc.program, name) != ReturnKey(sc.program, k)
    ensures var m1 := Put(m, sc, t, name, value).m;
            var key := ProgramKey(Sc, sc.program, name);
            StoreOk(m1, sc.program, stack) && key in m1 && m1[key].value == value && (t == Sc ==> m1[key].t == Sc)
  {
    hide LabelKey, ProgramKey, PutKey, ReturnKey;
    OwnPutKey(m, sc, t, name);
    var key := ProgramKey(Sc, sc.program, name);
    var m1 := Put(m, sc, t, name, value).m;
    assert Own(key) by { OwnKeys(sc.program, name); }
    assert m1.Keys == m.Keys + {key};
    forall section: string, other: string ensures LabelKey(Sc, Scope(sc.program, section), other) !in m1 {
      KeysDiffer(Sc, Scope(sc.program, section), other, Sc, name);
    }
    forall k | 0 <= k < |stack| ensures Saved(m1, sc.program, k + 1, stack[k]) {
      assert Saved(m, sc.program, k + 1, stack[k]);
      assert ReturnKey(sc.program, k + 1) != key;
    }
  }

  lemma OwnKeys(program: string, name: string)
    ensures Own(ProgramKey(Sc, program, name))
  {
  }

  // ---------------------------------------------------------------- a call

  /** Arguments by reference are entries of the user that are no references themselves. */
  predicate PlainArgs(m: Store, args: seq<Token>) {
    forall k :: 0 <= k < |args| && ByRef(args[k]) ==> UserPut(m, Ref, args[k].text)
  }

  /** So are those that come off a queue. */
  predicate PlainQueue(r: Reader, m: Store, stack: seq<byte>, count: nat) {
    PlainArgs(m, Drained(r.codes, stack, count))
  }

  /** No put makes a reference of an entry that was none. */
  lemma StaysPlain(m: Store, sc: Scope, t: VarType, name: string, value: string, args: seq<Token>)
    requires PlainArgs(m, args) && Put(m, sc, t, name, value).Stored?
    ensures PlainArgs(Put(m, sc, t, name, value).m, args)
  {
    hide PutKey;
  }

  /** The argument on top of the queue, and those behind it. */
  lemma TopPlain(r: Reader, m: Store, stack: seq<byte>, count: nat)
    requires PlainQueue(r, m, stack, count) && count > 0 && Take(r.codes, stack).Some?
    ensures var (a, rest) := Take(r.codes, stack).value;
            && UserPut(m, if ByRef(a) then Ref else Local, a.text)
            && PlainQueue(r, m, rest, count - 1)
  {
    hide Take;
    var (a, rest) := Take(r.codes, stack).value;
    var args := Drained(r.codes, stack, count);
    assert args[0] == a && args[1..] == Drained(r.codes, rest, count - 1);
  }

  /** A parameter bound: the interpreter's entries and the rest of the queue are as they should be. */
  lemma ParameterKeeps(r: Reader, m: Store, sc: Scope, t: VarType, name: string, value: string, stack: seq<byte>,
                       count: nat, program: string, open: seq<nat>)
    requires UserPut(m, t, value) && StoreOk(m, program, open) && PlainQueue(r, m, stack, count)
             && Put(m, sc, t, name, value).Stored?
    ensures var m1 := Put(m, sc, t, name, value).m; StoreOk(m1, program, open) && PlainQueue(r, m1, stack, count)
  {
    hide Put, StoreOk, PlainArgs, Drained, UserPut;
    UserPutKeeps(m, sc, t, name, value, program, open);
    StaysPlain(m, sc, t, name, value, Drained(r.codes, stack, count));
  }

  lemma {:induction false} BindKeeps(r: Reader, m: Store, stack: seq<byte>, count: nat, i: nat, program: string,
                                     open: seq<nat>)
    requires i <= |r.bytes| && StoreOk(m, program, open) && PlainQueue(r, m, stack, count)
             && Bind(r, m, stack, count, i).Bound?
    ensures StoreOk(Bind(r, m, stack, count, i).m, program, open)
    decreases |r.bytes| - i
  {
    hide Put, StoreOk, Fetch, Take, PlainQueue, UserPut;
    var t, j := TokenIn(r, i), Behind(r, i);
    if t.kind != EndOfLine {
      if t.kind == Comma {
        BindKeeps(r, m, stack, count, j, program, open);
      } else if t.kind == Value(Identifier) && count > 0 {
        var (a, rest) := Take(r.codes, stack).value;
        var sc, u := r.scope(j), if ByRef(a) then Ref else Local;
        TopPlain(r, m, stack, count);
        if Put(m, sc, u, t.text, a.text).Stored? {
          ParameterKeeps(r, m, sc, u, t.text, a.text, rest, count - 1, program, open);
          BindKeeps(r, Put(m, sc, u, t.text, a.text).m, rest, count - 1, j, program, open);
        } else {
          BindKeeps(r, m, rest, count - 1, j, program, open);
        }
      }
    }
  }

  ghost predicate OneProgram(r: Reader, program: string) {
    |r.bytes| < TWO_64 && forall i: nat :: r.scope(i).program == program
  }

  /** The open calls, the last on top: where each of them goes on. */
  ghost predicate Nested(r: Reader, c: Calls, program: string, stack: seq<nat>) {
    && c.nest == |stack| && c.idx <= |r.bytes| && StoreOk(c.m, program, stack)
    && forall k :: 0 <= k < |stack| ==> stack[k] <= |r.bytes|
  }

  /** A call whose arguments by reference are plain as they come off the queue. */
  predicate PlainCall(r: Reader, c: Calls)
    requires c.idx <= |r.bytes|
  {
    var q := Queue(r, c.m, Behind(r, c.idx));
    q.Queued? ==> PlainQueue(r, c.m, q.stack, q.count)
  }

  /** A call opens one: it goes on behind the line of the GOSUB. */
  lemma CallPushes(r: Reader, c: Calls, program: string, stack: seq<nat>)
    requires OneProgram(r, program) && Nested(r, c, program, stack)
    requires Gosub(r, c).Went? && PlainCall(r, c)
    ensures Nested(r, Gosub(r, c).c, program, stack + [Queue(r, c.m, Behind(r, c.idx)).idx])
  {
    hide Put, Queue, Bind, Decimal, StoreOk, PlainArgs, Drained;
    var q := Queue(r, c.m, Behind(r, c.idx));
    var sc := r.scope(q.idx);
    var m1 := Put(c.m, sc, Sc, ReturnName(c.nest + 1), Decimal(q.idx)).m;
    forall k | 0 < k <= |stack| ensures ProgramKey(Sc, program, ReturnName(c.nest + 1)) != ReturnKey(program, k) {
      ReturnKeysDiffer(program, c.nest + 1, k);
    }
    OwnPutKeeps(c.m, sc, Sc, ReturnName(c.nest + 1), Decimal(q.idx), stack);
    Pushed(m1, program, stack, q.idx);
    StaysPlain(c.m, sc, Sc, ReturnName(c.nest + 1), Decimal(q.idx), Drained(r.codes, q.stack, q.count));
    var place := Get(c.m, r.scope(Behind(r, c.idx)), VarType.Label, TokenIn(r, c.idx).text);
    BindKeeps(r, m1, q.stack, q.count, Start(r, place), program, stack + [q.idx]);
  }

  lemma Pushed(m: Store, program: string, stack: seq<nat>, idx: nat)
    requires StoreOk(m, program, stack) && Saved(m, program, |stack| + 1, idx)
    ensures StoreOk(m, program, stack + [idx])
  {
    forall k | 0 <= k <= |stack| ensures Saved(m, program, k + 1, (stack + [idx])[k]) {
      if k < |stack| { assert Saved(m, program, k + 1, stack[k]); }
    }
  }

  lemma Shorter(m: Store, program: string, stack: seq<nat>, s: seq<nat>)
    requires StackOk(m, program, stack) && s <= stack
    ensures StackOk(m, program, s)
  {
    hide Saved;
    forall k | 0 <= k < |s| ensures Saved(m, program, k + 1, s[k]) {
      assert s[k] == stack[k];
    }
  }

  /** RETURN goes to the index of the open call last made and closes it. */
  lemma ReturnPops(r: Reader, c: Calls, program: string, stack: seq<nat>)
    requires OneProgram(r, program) && Nested(r, c, program, stack) && stack != []
    ensures var o := Return(r, c);
            o.Went? && o.ok && o.c.idx == stack[|stack| - 1] && Nested(r, o.c, program, stack[..|stack| - 1])
  {
    hide Decimal, LabelKey, ProgramKey, RefsOk;
    var n := |stack|;
    assert Saved(c.m, program, n, stack[n - 1]);
    var sc := r.scope(c.idx);
    assert LabelKey(Sc, Scope(program, sc.section), ReturnName(n)) !in c.m;
    assert sc == Scope(program, sc.section);
    UnsignedRoundTrip(stack[n - 1]);
    assert Get(c.m, sc, Sc, ReturnName(n)) == Some(Decimal(stack[n - 1]));
    Shorter(c.m, program, stack, stack[..n - 1]);
  }

  // ---------------------------------------------------------------- runs

  /** What a program does between its calls: a put of the user, or of the interpreter under another
      name, and any move of the cursor. */
  datatype Act = DoGosub | DoReturn | Other(sc: Scope, t: VarType, name: string, value: string, idx: nat)

  ghost predicate Allowed(a: Act, program: string) {
    a.Other? ==>
      && a.sc.program == program && a.t != Ref
      && (a.t == Sc || a.t == VarType.Label ==> forall n: nat :: a.name != ReturnName(n))
  }

  /** Along the run every RETURN goes where the last open GOSUB goes on, and `nest` counts the open
      calls; a RETURN with no open call changes nothing. */
  ghost predicate LastInFirstOut(r: Reader, c: Calls, program: string, stack: seq<nat>, acts: seq<Act>)
    requires c.idx <= |r.bytes|
    decreases |acts|
  {
    && c.nest == |stack|
    && (acts == [] ||
        match acts[0]
        case DoGosub =>
          var q := Queue(r, c.m, Behind(r, c.idx));
          q.Queued? && PlainCall(r, c) && Gosub(r, c).Went? ==>
            LastInFirstOut(r, Gosub(r, c).c, program, stack + [q.idx], acts[1..])
        case DoReturn =>
          var o := Return(r, c);
          && o.Went?
          && (if stack == [] then o.c == c && LastInFirstOut(r, c, program, stack, acts[1..])
              else o.ok && o.c.idx == stack[|stack| - 1]
                   && LastInFirstOut(r, o.c, program, stack[..|stack| - 1], acts[1..]))
        case Other(sc, t, name, value, idx) =>
          var out := Put(c.m, sc, t, name, value);
          Allowed(acts[0], program) && out.Stored? && idx <= |r.bytes| ==>
            LastInFirstOut(r, Calls(out.m, c.nest, idx), program, stack, acts[1..]))
  }

  lemma OtherKeeps(m: Store, a: Act, program: string, stack: seq<nat>)
    requires StoreOk(m, program, stack) && a.Other? && Allowed(a, program) && Put(m, a.sc, a.t, a.name, a.value).Stored?
    ensures StoreOk(Put(m, a.sc, a.t, a.name, a.value).m, program, stack)
  {
    hide Put, StoreOk;
    if a.t == Sc || a.t == VarType.Label {
      forall k | 0 < k <= |stack| ensures ProgramKey(Sc, program, a.name) != ReturnKey(program, k) {
        var n: nat := k;
        assert a.name != ReturnName(n);
        SameProgramKey(program, a.name, ReturnName(n));
      }
      OwnPutKeeps(m, a.sc, a.t, a.name, a.value, stack);
    } else {
      UserPutKeeps(m, a.sc, a.t, a.name, a.value, program, stack);
    }
  }

  lemma SameProgramKey(program: string, a: string, b: string)
    ensures ProgramKey(Sc, program, a) == ProgramKey(Sc, program, b) ==> a == b
  {
    var p := "#(" + program + ")";
    assert ProgramKey(Sc, program, a) == p + a && ProgramKey(Sc, program, b) == p + b;
    assert (p + a)[|p|..] == a && (p + b)[|p|..] == b;
  }

  lemma {:induction false} RunsLastInFirstOut(r: Reader, c: Calls, program: string, stack: seq<nat>, acts: seq<Act>)
    requires OneProgram(r, program) && Nested(r, c, program, stack)
    ensures LastInFirstOut(r, c, program, stack, acts)
    decreases |acts|
  {
    hide Put, Gosub, Queue, Allowed, StoreOk, PlainCall;
    if acts != [] {
      match acts[0] {
        case DoGosub =>
          var q := Queue(r, c.m, Behind(r, c.idx));
          if q.Queued? && PlainCall(r, c) && Gosub(r, c).Went? {
            CallPushes(r, c, program, stack);
            RunsLastInFirstOut(r, Gosub(r, c).c, program, stack + [q.idx], acts[1..]);
          }
        case DoReturn =>
          if stack == [] {
            RunsLastInFirstOut(r, c, program, stack, acts[1..]);
          } else {
            ReturnPops(r, c, program, stack);
            RunsLastInFirstOut(r, Return(r, c).c, program, stack[..|stack| - 1], acts[1..]);
          }
        case Other(sc, t, name, value, idx) =>
          var out := Put(c.m, sc, t, name, value);
          if Allowed(acts[0], program) && out.Stored? && idx <= |r.bytes| {
            OtherKeeps(c.m, acts[0], program, stack);
            RunsLastInFirstOut(r, Calls(out.m, c.nest, idx), program, stack, acts[1..]);
          }
      }
    }
  }
}
