/** What the variable store promises: a put changes one entry, a get finds what was put through the
    scopes, defined entries stay, and references read and write the entry they were given. */
module VariableLaws {
  import opened Tokens
  import opened VariableStore

  // ---------------------------------------------------------------- keys

  lemma KeysDiffer(t: VarType, sc: Scope, name: string, u: VarType, name1: string)
    ensures LabelKey(t, sc, name) != ProgramKey(u, sc.program, name1)
  {
    var a, b := LabelKey(t, sc, name), ProgramKey(u, sc.program, name1);
    if Prefix(t) == Prefix(u) {
      var n := |Prefix(t)| + 1 + |sc.program|;
      assert a[n] == '.';
      assert b[n] == ')';
    } else {
      assert Prefix(t) == "" ==> a[0] == '(' && b[0] == '#';
      assert Prefix(t) != "" ==> a[0] == '#' && b[0] == '(';
    }
  }

  // ---------------------------------------------------------------- what becomes of a put

  /** A put is stored where the entry it resolves to is not there yet, is an ordinary variable, or refers
      to one that is there; and always where it binds a reference. */
  predicate Accepts(m: Store, key: string, t: VarType) {
    || t == Ref || key !in m
    || m[key].t == User || m[key].t == Local || m[key].t == Global || m[key].t == Sc
    || (m[key].t == Ref && m[key].value in m)
  }

  /** A put to a defined entry is refused, one to a label ends the process, one through a reference to
      nothing is undefined, and every other is stored. */
  lemma PutOutcome(m: Store, sc: Scope, t: VarType, name: string, value: string)
    ensures var key, out := PutKey(m, sc, t, name), Put(m, sc, t, name, value);
            && (out.Stored? <==> Accepts(m, key, t))
            && (out.Refused? <==> t != Ref && key in m && m[key].t == Define)
            && (out.Exits? <==> t != Ref && key in m && m[key].t == VarType.Label)
            && (out.Dangling? <==> t != Ref && key in m && m[key].t == Ref && m[key].value !in m)
  {
    hide PutKey;
  }

  /** A second put of an ordinary variable in the same scope replaces the first. */
  lemma PutTwice(m: Store, sc: Scope, t: VarType, name: string, value: string, value2: string)
    requires (t == User || t == Local) && Accepts(m, PutKey(m, sc, t, name), t) && Direct(m, PutKey(m, sc, t, name))
    ensures var m1 := Put(m, sc, t, name, value).m;
            && Put(m, sc, t, name, value).Stored? && Put(m1, sc, User, name, value2).Stored?
            && Get(Put(m1, sc, User, name, value2).m, sc, User, name) == Some(value2)
  {
    hide LabelKey, ProgramKey;
    KeysDiffer(User, sc, name, User, name);
    SameKeys(sc, t, name);
  }

  // ---------------------------------------------------------------- a put changes one entry

  /** A put that is accepted is stored in one entry, the one it resolves to through at most one
      reference; an entry keeps its type, and its value becomes the value put. */
  lemma PutChangesOne(m: Store, sc: Scope, t: VarType, name: string, value: string)
    requires Accepts(m, PutKey(m, sc, t, name), t)
    ensures Put(m, sc, t, name, value).Stored?
    ensures var m1, k := Put(m, sc, t, name, value).m, Target(m, PutKey(m, sc, t, name), t);
            && m1.Keys == m.Keys + {k} && m1[k] == Cell(value, if k in m then m[k].t else t)
            && forall j :: j in m && j != k ==> m1[j] == m[j]
  {
    hide PutKey;
  }

  // ---------------------------------------------------------------- get after put

  /** A reference to itself would take the value put for a name. */
  predicate Direct(m: Store, key: string) {
    key in m && m[key].t == Ref ==> m[key].value != key
  }

  /** A value put as an ordinary variable, or for the label alone, is read back in the same scope. */
  lemma GetAfterPut(m: Store, sc: Scope, t: VarType, name: string, value: string)
    requires (t == User || t == Local) && Accepts(m, PutKey(m, sc, t, name), t) && Direct(m, PutKey(m, sc, t, name))
    ensures Put(m, sc, t, name, value).Stored?
    ensures Get(Put(m, sc, t, name, value).m, sc, User, name) == Some(value)
  {
    hide LabelKey, ProgramKey;
    KeysDiffer(User, sc, name, User, name);
    SameKeys(sc, t, name);
  }

  /** An ordinary variable that no label has for itself is one of the whole program: what is put in one
      label is read in all. */
  lemma SharedInProgram(m: Store, sc: Scope, at: Scope, name: string, value: string)
    requires m != map[] && at.program == sc.program && Accepts(m, ProgramKey(User, sc.program, name), User)
             && Direct(m, ProgramKey(User, sc.program, name))
    requires sc.section != "" ==> LabelKey(User, sc, name) !in m
    requires at.section != "" ==> LabelKey(User, at, name) !in m
    ensures Put(m, sc, User, name, value).Stored? && Get(Put(m, sc, User, name, value).m, at, User, name) == Some(value)
  {
    hide LabelKey, ProgramKey;
    KeysDiffer(User, at, name, User, name);
  }

  /** What is put for a label alone changes nothing in the other labels of the program. */
  lemma LocalToLabel(m: Store, sc: Scope, at: Scope, name: string, value: string)
    requires m != map[] && sc.section != "" && at.program == sc.program && at.section != sc.section
    requires var own, seen := LabelKey(User, sc, name), GetKey(m, at, User, name);
             && (own in m ==> m[own].t != Ref)
             && (seen.Some? && seen.value in m && m[seen.value].t == Ref ==> m[seen.value].value != own)
    ensures var out := Put(m, sc, Local, name, value);
            out.Stored? ==> Get(out.m, at, User, name) == Get(m, at, User, name)
  {
    hide LabelKey, ProgramKey;
    SameKeys(sc, Local, name);
    KeysDiffer(User, sc, name, User, name);
    DefaultKeys(sc, name);
    LabelsDiffer(sc, at, name);
  }

  lemma LabelsDiffer(a: Scope, b: Scope, name: string)
    requires a.program == b.program && a.section != b.section
    ensures LabelKey(User, a, name) != LabelKey(User, b, name)
  {
    var x, y, n := LabelKey(User, a, name), LabelKey(User, b, name), |a.program| + 2;
    assert |x| == n + |a.section| + 1 + |name| && |y| == n + |b.section| + 1 + |name|;
    assert x[n..n + |a.section|] == a.section && y[n..n + |b.section|] == b.section;
  }

  /** A global put goes to the level of the default program exactly when something is stored already,
      or the default program runs. */
  lemma GlobalKey(m: Store, sc: Scope, name: string)
    ensures PutKey(m, sc, Global, name) == ProgramKey(User, DEFAULT_PROGRAM, name)
            <==> m != map[] || sc.program == DEFAULT_PROGRAM
  {
    ProgramKeysDiffer(sc.program, DEFAULT_PROGRAM, name);
  }

  /** The program in which a global put lands. */
  function GlobalProgram(m: Store, sc: Scope): string {
    if m == map[] then sc.program else DEFAULT_PROGRAM
  }

  /** Whether the key of a name at program level is also its key seen from a label: two names of
      program and label joined by a dot may be the name of a program. */
  predicate Dotted(at: Scope, program: string) {
    at.section != "" && at.program + "." + at.section == program
  }

  /** A global value is read back in a scope exactly where no label and no program of the scope hides
      the name, and, if it is the first value ever put, only in the program that put it. */
  lemma GetAfterGlobal(m: Store, sc: Scope, at: Scope, name: string, value: string)
    requires Accepts(m, PutKey(m, sc, Global, name), Global) && Direct(m, PutKey(m, sc, Global, name))
    ensures Put(m, sc, Global, name, value).Stored?
    ensures var m1, key := Put(m, sc, Global, name, value).m, ProgramKey(User, GlobalProgram(m, sc), name);
            && (GetKey(m1, at, User, name) == Some(key) ==> Get(m1, at, User, name) == Some(value))
            && (GetKey(m1, at, User, name) == Some(key) <==>
                if m == map[] then at.program == sc.program || sc.program == DEFAULT_PROGRAM || Dotted(at, sc.program)
                else (at.section != "" ==> LabelKey(User, at, name) !in m)
                     && (at.program == DEFAULT_PROGRAM || ProgramKey(User, at.program, name) !in m))
  {
    hide LabelKey, ProgramKey;
    KeysDiffer(User, at, name, User, name);
    SameKeys(sc, Global, name);
    DefaultKeys(at, name);
    if m == map[] {
      ProgramKeysDiffer(at.program, sc.program, name);
      ProgramKeysDiffer(DEFAULT_PROGRAM, sc.program, name);
      LabelAsProgram(at, sc.program, name);
      assert Put(m, sc, Global, name, value).m == map[ProgramKey(User, sc.program, name) := Cell(value, Global)];
    }
  }

  /** The first value of all, put as a global of program "p", is not there for program "q". */
  lemma FirstGlobalHidden(name: string, value: string)
    ensures var out := Put(map[], Scope("p", ""), Global, name, value);
            && out.Stored?
            && Get(out.m, Scope("p", ""), User, name) == Some(value) && Get(out.m, Scope("q", ""), User, name) == None
  {
    hide LabelKey, ProgramKey;
    SameKeys(Scope("p", ""), Global, name);
    ProgramKeysDiffer("q", "p", name);
    ProgramKeysDiffer(DEFAULT_PROGRAM, "p", name);
  }

  lemma ProgramKeysDiffer(p: string, q: string, name: string)
    ensures ProgramKey(User, p, name) == ProgramKey(User, q, name) <==> p == q
  {
    var a, b := ProgramKey(User, p, name), ProgramKey(User, q, name);
    assert |a| == |p| + 2 + |name| && |b| == |q| + 2 + |name|;
    assert a[1..1 + |p|] == p && b[1..1 + |q|] == q;
  }

  lemma LabelAsProgram(at: Scope, program: string, name: string)
    ensures LabelKey(User, at, name) == ProgramKey(User, program, name) <==> at.program + "." + at.section == program
  {
    var a := LabelKey(User, at, name);
    assert a == ProgramKey(User, at.program + "." + at.section, name);
    ProgramKeysDiffer(at.program + "." + at.section, program, name);
  }

  lemma DefaultKeys(at: Scope, name: string)
    ensures LabelKey(User, at, name) != ProgramKey(User, DEFAULT_PROGRAM, name)
    ensures at.program != DEFAULT_PROGRAM ==>
              ProgramKey(User, at.program, name) != ProgramKey(User, DEFAULT_PROGRAM, name)
  {
    var a, b, c := LabelKey(User, at, name), ProgramKey(User, DEFAULT_PROGRAM, name),
        ProgramKey(User, at.program, name);
    assert |a| == |at.program| + |at.section| + 3 + |name| && |b| == 2 + |name| && |c| == |at.program| + 2 + |name|;
  }

  lemma SameKeys(sc: Scope, t: VarType, name: string)
    requires t == User || t == Local || t == Global || t == Define || t == Ref
    ensures LabelKey(t, sc, name) == LabelKey(User, sc, name)
    ensures forall p :: ProgramKey(t, p, name) == ProgramKey(User, p, name)
  {
  }

  // ---------------------------------------------------------------- defined entries

  /** A put that resolves to `key` is the binding of a reference named `k`, or goes to `k` through one. */
  predicate Aims(m: Store, t: VarType, key: string, k: string) {
    if t == Ref then key == k else key in m && m[key].t == Ref && m[key].value == k
  }

  /** A put changes a defined entry exactly when it goes to it through a reference, or is itself the
      binding of a reference under the same name. */
  lemma DefinedChanges(m: Store, sc: Scope, t: VarType, name: string, value: string, k: string)
    requires k in m && m[k].t == Define && Accepts(m, PutKey(m, sc, t, name), t)
    ensures Put(m, sc, t, name, value).Stored?
    ensures var m1, key := Put(m, sc, t, name, value).m, PutKey(m, sc, t, name);
            && k in m1 && m1[k].t == Define
            && (m1[k] != m[k] <==> m[k].value != value && Aims(m, t, key, k))
  {
    hide PutKey;
  }

  datatype PutCall = PutCall(sc: Scope, t: VarType, name: string, value: string)

  /** A sequence of puts; one that is refused, or ends the process, changes nothing. */
  function Puts(m: Store, calls: seq<PutCall>): Store
    decreases |calls|
  {
    if calls == [] then m
    else
      match Put(m, calls[0].sc, calls[0].t, calls[0].name, calls[0].value)
      case Stored(m1) => Puts(m1, calls[1..])
      case _ => Puts(m, calls[1..])
  }

  /** Without reference parameters what is defined stays as it is, whatever is put. */
  lemma {:induction false} DefinedStays(m: Store, calls: seq<PutCall>, k: string)
    requires k in m && m[k].t == Define && forall j :: j in m ==> m[j].t != Ref
    requires forall i :: 0 <= i < |calls| ==> calls[i].t != Ref
    ensures k in Puts(m, calls) && Puts(m, calls)[k] == m[k]
    decreases |calls|
  {
    hide PutKey, Put;
    if calls != [] {
      var c := calls[0];
      var out := Put(m, c.sc, c.t, c.name, c.value);
      if out.Stored? {
        OtherThanDefined(m, c, k);
        DefinedStays(out.m, calls[1..], k);
      } else {
        DefinedStays(m, calls[1..], k);
      }
    }
  }

  lemma OtherThanDefined(m: Store, c: PutCall, k: string)
    requires k in m && m[k].t == Define && c.t != Ref && (forall j :: j in m ==> m[j].t != Ref)
    requires Put(m, c.sc, c.t, c.name, c.value).Stored?
    ensures var m1 := Put(m, c.sc, c.t, c.name, c.value).m;
            k in m1 && m1[k] == m[k] && forall j :: j in m1 ==> m1[j].t != Ref
  {
    hide PutKey;
  }

  // ---------------------------------------------------------------- references

  /** The entry a caller's identifier resolved to. */
  predicate Refers(m: Store, key: string, callee: Scope, param: string) {
    && key in m && m[key].t != Ref && callee.section != ""
    && LabelKey(User, callee, param) != key
    && (LabelKey(User, callee, param) in m ==> m[LabelKey(User, callee, param)].t == Ref)
  }

  /** A parameter bound by reference, seen from inside the callee: reading it gives the entry,
      assigning to it changes that entry and no other; the binding itself changes only the
      parameter's own entry. */
  lemma ReferenceParameter(m: Store, key: string, callee: Scope, param: string, value: string)
    requires Refers(m, key, callee, param)
    ensures var own := LabelKey(User, callee, param);
            var bound := Put(m, callee, Ref, param, key);
            && bound == Stored(m[own := Cell(key, Ref)])
            && Get(bound.m, callee, User, param) == Some(m[key].value)
            && Put(bound.m, callee, User, param, value) == Stored(bound.m[key := Cell(value, m[key].t)])
            && Get(bound.m[key := Cell(value, m[key].t)], callee, User, param) == Some(value)
  {
    hide LabelKey, ProgramKey;
    SameKeys(callee, Ref, param);
  }

  /** What the caller's identifier resolves to, asked for as a reference, is where its reads and its
      assignments go, unless a label, a definition or another reference stands there. */
  lemma CallerEntry(m: Store, caller: Scope, name: string, key: string)
    requires Get(m, caller, Ref, name) == Some(key)
    ensures key in m && (m[key].t != Ref ==> Get(m, caller, User, name) == Some(m[key].value))
    ensures key != ProgramKey(User, DEFAULT_PROGRAM, name) || caller.program == DEFAULT_PROGRAM ==>
              PutKey(m, caller, User, name) == key
  {
    hide LabelKey, ProgramKey;
    SameKeys(caller, Ref, name);
    KeysDiffer(User, caller, name, User, name);
  }

  /** Back in the caller, its identifier has the value the callee assigned, unless the parameter's
      own entry has come to hide the identifier. */
  lemma SeenByCaller(m: Store, caller: Scope, name: string, key: string, callee: Scope, param: string, value: string)
    requires Get(m, caller, Ref, name) == Some(key) && Refers(m, key, callee, param)
    requires var own := LabelKey(User, callee, param);
             own != LabelKey(User, caller, name) && own != ProgramKey(User, caller.program, name)
    ensures var m1 := m[LabelKey(User, callee, param) := Cell(key, Ref)][key := Cell(value, m[key].t)];
            Get(m1, caller, User, name) == Some(value)
  {
    hide LabelKey, ProgramKey;
    SameKeys(caller, Ref, name);
  }
}
