/** The variable store (source/variables.c): an array sorted by hash and name and searched by
    bisection, three levels of scope, and entries that refer to others. */
module VariableStore {
  import opened Tokens

  datatype VarType = Define | Global | Local | User | Ref | Sc | Label

  /** source/sc.c:39 */
  function Prefix(t: VarType): string {
    if t == Sc || t == VarType.Label then "#" else ""
  }

  /** The program that runs and the label it is in, none outside of labels. */
  datatype Scope = Scope(program: string, section: string)

  const DEFAULT_PROGRAM := ""

  function LabelKey(t: VarType, sc: Scope, name: string): string {
    Prefix(t) + "(" + sc.program + "." + sc.section + ")" + name
  }

  function ProgramKey(t: VarType, program: string, name: string): string {
    Prefix(t) + "(" + program + ")" + name
  }

  // ---------------------------------------------------------------- the store as a map

  datatype Cell = Cell(value: string, t: VarType)
  type Store = map<string, Cell>

  /** The key a put resolves to: source/variables.c:99-231. The first put of all goes to the program's
      level whatever its type. */
  function PutKey(m: Store, sc: Scope, t: VarType, name: string): string {
    if m == map[] then ProgramKey(t, sc.program, name)
    else if t == Global then ProgramKey(t, DEFAULT_PROGRAM, name)
    else if t == Local then (if sc.section != "" then LabelKey(t, sc, name) else ProgramKey(t, sc.program, name))
    else if sc.section != "" && (LabelKey(t, sc, name) in m || t == Ref) then LabelKey(t, sc, name)
    else ProgramKey(t, sc.program, name)
  }

  /** Where a put writes: through a reference, unless it binds the reference itself. */
  function Target(m: Store, key: string, t: VarType): string {
    if key in m && t != Ref && m[key].t == Ref then m[key].value else key
  }

  /** Refused: a defined entry, a label (which ends the process), or a reference to nothing (which the
      source follows all the same). */
  datatype PutOut = Stored(m: Store) | Refused | Exits | Dangling

  datatype PutEnd = Done | Declined | Ended | FollowsNothing

  function EndOf(out: PutOut): PutEnd {
    match out
    case Stored(_) => Done
    case Refused => Declined
    case Exits => Ended
    case Dangling => FollowsNothing
  }

  /** source/variables.c:233-360 */
  function Put(m: Store, sc: Scope, t: VarType, name: string, value: string): PutOut {
    var key := PutKey(m, sc, t, name);
    if key !in m then Stored(m[key := Cell(value, t)])
    else if t == Ref then Stored(m[key := m[key].(value := value)])
    else if m[key].t == Ref then
      var target := m[key].value;
      if target in m then Stored(m[target := m[target].(value := value)]) else Dangling
    else if m[key].t == Define then Refused
    else if m[key].t == VarType.Label then Exits
    else Stored(m[key := m[key].(value := value)])
  }

  /** The key a get resolves to: label, program, default program (source/variables.c:403-472). */
  function GetKey(m: Store, sc: Scope, t: VarType, name: string): Option<string> {
    if sc.section != "" && LabelKey(t, sc, name) in m then Some(LabelKey(t, sc, name))
    else if ProgramKey(t, sc.program, name) in m then Some(ProgramKey(t, sc.program, name))
    else if ProgramKey(t, DEFAULT_PROGRAM, name) in m then Some(ProgramKey(t, DEFAULT_PROGRAM, name))
    else None
  }

  /** source/variables.c:474-507: asked for a reference, the key itself; else the value, through one
      reference. */
  function Get(m: Store, sc: Scope, t: VarType, name: string): Option<string> {
    match GetKey(m, sc, t, name)
    case None => None
    case Some(key) =>
      if key !in m then None
      else if t == Ref then Some(key)
      else if m[key].t == Ref then (if m[key].value in m then Some(m[m[key].value].value) else None)
      else Some(m[key].value)
  }

  // ---------------------------------------------------------------- the order of the array

  /** get_hash */
  function Hash(s: string): (h: nat) {
    if s == "" then 0 else (s[|s| - 1] as nat % 256 + 31 * Hash(s[..|s| - 1])) % 0x1_0000_0000
  }

  /** strcmp(a, b) < 0 */
  predicate Before(a: string, b: string)
    decreases |a|
  {
    if b == "" then false
    else if a == "" then true
    else if a[0] != b[0] then a[0] < b[0]
    else Before(a[1..], b[1..])
  }

  /** name_cmp(a, b) < 0: by hash, and by name where hashes collide. */
  predicate Less(a: string, b: string) {
    Hash(a) < Hash(b) || (Hash(a) == Hash(b) && Before(a, b))
  }

  lemma {:induction false} BeforeTrans(a: string, b: string, c: string)
    requires Before(a, b) && Before(b, c)
    ensures Before(a, c)
    decreases |a|
  {
    if a != "" && a[0] == b[0] == c[0] {
      BeforeTrans(a[1..], b[1..], c[1..]);
    }
  }

  lemma {:induction false} BeforeTotal(a: string, b: string)
    ensures Before(a, b) || Before(b, a) || a == b
    ensures !(Before(a, b) && Before(b, a)) && (a == b ==> !Before(a, b))
    decreases |a|
  {
    if a != "" && b != "" && a[0] == b[0] {
      BeforeTotal(a[1..], b[1..]);
      if a[1..] == b[1..] {
        assert a == [a[0]] + a[1..] && b == [b[0]] + b[1..];
      }
    }
  }

  lemma LessTrans(a: string, b: string, c: string)
    requires Less(a, b) && Less(b, c)
    ensures Less(a, c)
  {
    hide Hash;
    if Before(a, b) && Before(b, c) { BeforeTrans(a, b, c); }
  }

  lemma LessTotal(a: string, b: string)
    ensures Less(a, b) || Less(b, a) || a == b
    ensures !(Less(a, b) && Less(b, a)) && (a == b ==> !Less(a, b))
  {
    hide Hash;
    BeforeTotal(a, b);
  }

  // ---------------------------------------------------------------- the array

  datatype Var = Var(name: string, cell: Cell)

  predicate Sorted(s: seq<Var>) {
    forall i, j :: 0 <= i < j < |s| ==> Less(s[i].name, s[j].name)
  }

  predicate Names(s: seq<Var>, name: string) {
    exists i :: 0 <= i < |s| && s[i].name == name
  }

  /** The array holds exactly the entries of the map. */
  predicate Holds(s: seq<Var>, m: Store) {
    && (forall i :: 0 <= i < |s| ==> s[i].name in m && m[s[i].name] == s[i].cell)
    && (forall k :: k in m ==> Names(s, k))
  }

  class Variables {
    var root: seq<Var>
    ghost var store: Store

    ghost predicate Valid()
      reads this
    {
      Sorted(root) && Holds(root, store)
    }

    constructor ()
      ensures Valid() && store == map[]
    {
      root, store := [], map[];
    }

    /** `bsearch` with `name_cmp`: the entry of a name if and only if there is one. */
    method Find(name: string) returns (found: bool, idx: nat)
      requires Valid()
      ensures found <==> name in store
      ensures found ==> idx < |root| && root[idx].name == name && root[idx].cell == store[name]
    {
      hide Less;
      var lo, hi := 0, |root|;
      while lo < hi
        invariant lo <= hi <= |root|
        invariant forall i :: 0 <= i < lo ==> root[i].name != name
        invariant forall i :: hi <= i < |root| ==> root[i].name != name
      {
        var mid := (lo + hi) / 2;
        LessTotal(root[mid].name, name);
        if Less(root[mid].name, name) {
          BelowMid(root, mid, name);
          lo := mid + 1;
        } else if Less(name, root[mid].name) {
          AboveMid(root, mid, name);
          hi := mid;
        } else {
          return true, mid;
        }
      }
      assert name in store ==> Names(root, name);
      found, idx := false, 0;
    }

    /** The scan for the place of a new entry, and the entries behind it moved up by one. */
    method Insert(v: Var)
      requires Valid() && v.name !in store
      modifies this
      ensures Valid() && store == old(store)[v.name := v.cell]
    {
      hide Less;
      var idx := 0;
      while idx < |root| && Less(root[idx].name, v.name)
        invariant idx <= |root|
        invariant forall i :: 0 <= i < idx ==> Less(root[i].name, v.name)
      {
        idx := idx + 1;
      }
      InsertSorted(root, idx, v, store);
      root := root[..idx] + [v] + root[idx..];
      store := store[v.name := v.cell];
    }

    /** A new value for an entry; its type stays. */
    method Update(idx: nat, value: string)
      requires Valid() && idx < |root|
      modifies this
      ensures Valid()
      ensures var name := old(root)[idx].name; store == old(store)[name := old(store)[name].(value := value)]
    {
      hide Less;
      ghost var name := root[idx].name;
      UpdateHolds(root, idx, value, store);
      root := root[idx := root[idx].(cell := root[idx].cell.(value := value))];
      store := store[name := store[name].(value := value)];
    }

    method ResolvePut(sc: Scope, t: VarType, name: string) returns (key: string)
      requires Valid()
      ensures key == PutKey(store, sc, t, name)
    {
      hide Less, LabelKey, ProgramKey;
      if |root| == 0 {
        assert forall k :: k in store ==> Names(root, k);
        return ProgramKey(t, sc.program, name);
      }
      assert root[0].name in store;
      if t == Global {
        return ProgramKey(t, DEFAULT_PROGRAM, name);
      }
      if t == Local {
        return if sc.section != "" then LabelKey(t, sc, name) else ProgramKey(t, sc.program, name);
      }
      if sc.section != "" {
        key := LabelKey(t, sc, name);
        var found, idx := Find(key);
        if found || t == Ref {
          return;
        }
      }
      key := ProgramKey(t, sc.program, name);
    }

    /** variable_put */
    method VariablePut(sc: Scope, t: VarType, name: string, value: string) returns (end: PutEnd)
      requires Valid()
      modifies this
      ensures Valid()
      ensures var out := Put(old(store), sc, t, name, value);
              end == EndOf(out) && store == if out.Stored? then out.m else old(store)
    {
      hide PutKey, Less, Sorted, Holds;
      var key := ResolvePut(sc, t, name);
      var found, idx := Find(key);
      if !found {
        Insert(Var(key, Cell(value, t)));
        return Done;
      }
      if t == Ref {
        Update(idx, value);
      } else if root[idx].cell.t == Ref {
        found, idx := Find(root[idx].cell.value);
        if !found {
          return FollowsNothing;
        }
        Update(idx, value);
      } else if root[idx].cell.t == Define {
        return Declined;
      } else if root[idx].cell.t == VarType.Label {
        return Ended;
      } else {
        Update(idx, value);
      }
      end := Done;
    }

    /** variable_get */
    method VariableGet(sc: Scope, t: VarType, name: string) returns (value: Option<string>)
      requires Valid()
      ensures value == Get(store, sc, t, name)
    {
      hide Less, Sorted, Holds, LabelKey, ProgramKey;
      var found, idx, key := false, 0, "";
      if sc.section != "" {
        key := LabelKey(t, sc, name);
        found, idx := Find(key);
      }
      if !found {
        key := ProgramKey(t, sc.program, name);
        found, idx := Find(key);
      }
      if !found {
        key := ProgramKey(t, DEFAULT_PROGRAM, name);
        found, idx := Find(key);
      }
      if !found {
        return None;
      }
      if t == Ref {
        return Some(key);
      }
      if root[idx].cell.t == Ref {
        found, idx := Find(root[idx].cell.value);
        if !found {
          return None;
        }
      }
      value := Some(root[idx].cell.value);
    }
  }

  lemma BelowMid(s: seq<Var>, mid: nat, name: string)
    requires Sorted(s) && mid < |s| && Less(s[mid].name, name)
    ensures forall i :: 0 <= i <= mid ==> s[i].name != name
  {
    hide Less;
    forall i | 0 <= i <= mid ensures s[i].name != name {
      LessTotal(s[i].name, s[mid].name);
      LessTotal(s[mid].name, name);
    }
  }

  lemma AboveMid(s: seq<Var>, mid: nat, name: string)
    requires Sorted(s) && mid < |s| && Less(name, s[mid].name)
    ensures forall i :: mid <= i < |s| ==> s[i].name != name
  {
    hide Less;
    forall i | mid <= i < |s| ensures s[i].name != name {
      LessTotal(s[i].name, s[mid].name);
      LessTotal(name, s[mid].name);
    }
  }

  lemma InsertSorted(s: seq<Var>, idx: nat, v: Var, m: Store)
    requires Sorted(s) && Holds(s, m) && v.name !in m && idx <= |s|
    requires forall i :: 0 <= i < idx ==> Less(s[i].name, v.name)
    requires idx < |s| ==> !Less(s[idx].name, v.name)
    ensures Sorted(s[..idx] + [v] + s[idx..]) && Holds(s[..idx] + [v] + s[idx..], m[v.name := v.cell])
  {
    hide Less;
    var r := s[..idx] + [v] + s[idx..];
    forall j | idx <= j < |s| ensures Less(v.name, s[j].name) {
      LessTotal(s[idx].name, v.name);
      if j > idx { LessTrans(v.name, s[idx].name, s[j].name); }
    }
    forall k | k in m[v.name := v.cell] ensures Names(r, k) {
      if k == v.name {
        assert r[idx].name == k;
      } else {
        assert Names(s, k);
        var i :| 0 <= i < |s| && s[i].name == k;
        assert r[if i < idx then i else i + 1].name == k;
      }
    }
  }

  lemma UpdateHolds(s: seq<Var>, idx: nat, value: string, m: Store)
    requires Sorted(s) && Holds(s, m) && idx < |s|
    ensures var r := s[idx := s[idx].(cell := s[idx].cell.(value := value))];
            && Sorted(r) && s[idx].name in m && Holds(r, m[s[idx].name := m[s[idx].name].(value := value)])
  {
    hide Less;
    var r := s[idx := s[idx].(cell := s[idx].cell.(value := value))];
    assert forall i :: 0 <= i < |s| ==> r[i].name == s[i].name;
    forall i | 0 <= i < |s| && i != idx ensures s[i].name != s[idx].name {
      LessTotal(s[i].name, s[idx].name);
    }
    forall k | k in m ensures Names(r, k) {
      assert Names(s, k);
      var i :| 0 <= i < |s| && s[i].name == k;
      assert r[i].name == k;
    }
  }
}
