/** The table of labels (source/label.c): intervals of the program found by one scan, and a bisection
    that tells the label an index lies in. */
module Labels {
  import opened Tokens
  import opened Programs
  import opened ProgramText

  datatype Interval = Interval(name: string, lower: nat, upper: nat)

  /** The label that is open, and the index behind its name. */
  type Current = Option<(string, nat)>

  datatype Built = Built(table: seq<Interval>, ok: bool)

  function Until(cur: Current, upper: nat, rest: Built): Built {
    match cur
    case None => rest
    case Some((name, lower)) => Built([Interval(name, lower, upper)] + rest.table, rest.ok)
  }

  /** label_build_idx_table from index `i` on. The scan ends where no name follows LABEL or AFTER. */
  function Build(p: seq<Token>, i: nat, cur: Current): Built
    decreases |p| - i
  {
    if i >= |p| then Until(cur, i, Built([], true))
    else if p[i].kind == After || p[i].kind == Label then
      if RawAt(p, i + 1).kind == Value(Identifier) then
        Until(cur, i + 2, Build(p, i + 2, Some((p[i + 1].text, i + 2))))
      else Built([], false)
    else if p[i].kind == End then Until(cur, i + 1, Build(p, i + 1, None))
    else Build(p, i + 1, cur)
  }

  /** The plain reading: the last LABEL or AFTER whose name stands before the index, with no END in
      between. */
  function InLabel(p: seq<Token>, i: nat, cur: Current, idx: nat): string
    decreases |p| - i
  {
    var here := if cur.None? then "" else cur.value.0;
    if i >= |p| then here
    else if (p[i].kind == After || p[i].kind == Label) && RawAt(p, i + 1).kind == Value(Identifier) then
      if i + 2 > idx then here else InLabel(p, i + 2, Some((p[i + 1].text, i + 2)), idx)
    else if p[i].kind == End then
      if i + 1 > idx then here else InLabel(p, i + 1, None, idx)
    else InLabel(p, i + 1, cur, idx)
  }

  // ---------------------------------------------------------------- the table

  /** Intervals one behind the other, at most their ends in common. */
  predicate Ordered(t: seq<Interval>) {
    && (forall k :: 0 <= k < |t| ==> t[k].lower <= t[k].upper)
    && (forall j, k :: 0 <= j < k < |t| ==> t[j].upper <= t[k].lower)
  }

  predicate From(t: seq<Interval>, i: nat) {
    forall k :: 0 <= k < |t| ==> i <= t[k].lower
  }

  predicate Matches(v: Interval, idx: nat) { v.lower <= idx <= v.upper }

  predicate Endpoint(t: seq<Interval>, idx: nat) {
    exists k :: 0 <= k < |t| && (t[k].lower == idx || t[k].upper == idx)
  }

  lemma UntilOrdered(cur: Current, n: nat, rest: Built)
    requires (cur.Some? ==> cur.value.1 <= n) && Ordered(rest.table) && From(rest.table, n)
    ensures Ordered(Until(cur, n, rest).table) && From(Until(cur, n, rest).table, if cur.Some? then cur.value.1 else n)
  {
  }

  lemma FromLess(t: seq<Interval>, i: nat, j: nat)
    requires From(t, i) && j <= i
    ensures From(t, j)
  {
  }

  lemma {:induction false} BuildOrdered(p: seq<Token>, i: nat, cur: Current)
    requires cur.Some? ==> cur.value.1 <= i
    ensures Ordered(Build(p, i, cur).table) && From(Build(p, i, cur).table, if cur.Some? then cur.value.1 else i)
    decreases |p| - i
  {
    hide Ordered, From, Until;
    var from := if cur.Some? then cur.value.1 else i;
    NoIntervals(i);
    if i >= |p| {
      UntilOrdered(cur, i, Built([], true));
    } else if p[i].kind == After || p[i].kind == Label {
      if RawAt(p, i + 1).kind == Value(Identifier) {
        var next := Some((p[i + 1].text, i + 2));
        BuildOrdered(p, i + 2, next);
        UntilOrdered(cur, i + 2, Build(p, i + 2, next));
        FromLess(Until(cur, i + 2, Build(p, i + 2, next)).table, if cur.Some? then cur.value.1 else i + 2, from);
      } else {
        FromLess([], i, from);
      }
    } else if p[i].kind == End {
      BuildOrdered(p, i + 1, None);
      UntilOrdered(cur, i + 1, Build(p, i + 1, None));
      FromLess(Until(cur, i + 1, Build(p, i + 1, None)).table, if cur.Some? then cur.value.1 else i + 1, from);
    } else {
      BuildOrdered(p, i + 1, cur);
      FromLess(Build(p, i + 1, cur).table, if cur.Some? then cur.value.1 else i + 1, from);
    }
  }

  lemma NoIntervals(i: nat)
    ensures Ordered([]) && From([], i)
  {
  }

  /** The name of an interval the index lies in, if there is one. */
  predicate Found(t: seq<Interval>, idx: nat, name: string) {
    if exists k :: 0 <= k < |t| && Matches(t[k], idx)
    then exists k :: 0 <= k < |t| && Matches(t[k], idx) && t[k].name == name
    else name == ""
  }

  lemma FoundBehind(v: Interval, t: seq<Interval>, idx: nat, name: string)
    requires !Matches(v, idx) && Found(t, idx, name)
    ensures Found([v] + t, idx, name)
  {
    var s := [v] + t;
    assert forall k :: 0 <= k < |t| ==> s[k + 1] == t[k];
    if k :| 0 <= k < |t| && Matches(t[k], idx) && t[k].name == name {
      assert s[k + 1] == t[k];
    }
  }

  lemma EndpointBehind(v: Interval, t: seq<Interval>, idx: nat)
    requires !Endpoint([v] + t, idx)
    ensures !Endpoint(t, idx) && v.lower != idx && v.upper != idx
  {
    var s := [v] + t;
    assert s[0] == v && forall k :: 0 <= k < |t| ==> s[k + 1] == t[k];
  }

  /** The table and the plain reading agree on every index that is not an end of an interval. */
  lemma {:induction false} TableIsPlain(p: seq<Token>, i: nat, cur: Current, idx: nat)
    requires Build(p, i, cur).ok && !Endpoint(Build(p, i, cur).table, idx) && idx <= |p|
    requires cur.Some? ==> cur.value.1 <= i && cur.value.1 < idx
    requires i <= |p|
    ensures Found(Build(p, i, cur).table, idx, InLabel(p, i, cur, idx))
    decreases |p| - i
  {
    hide Found;
    if i == |p| {
      assert Found(Build(p, i, cur).table, idx, InLabel(p, i, cur, idx)) by { AtEnd(p, cur, idx); }
    } else if (p[i].kind == After || p[i].kind == Label) || p[i].kind == End {
      var label_ := p[i].kind != End;
      var n := if label_ then i + 2 else i + 1;
      var next: Current := if label_ then Some((p[i + 1].text, i + 2)) else None;
      var rest := Build(p, n, next);
      BuildOrdered(p, n, next);
      if cur.Some? {
        EndpointBehind(Interval(cur.value.0, cur.value.1, n), rest.table, idx);
      }
      if idx < n {
        EarlierFound(cur, n, rest.table, idx);
      } else {
        if label_ && idx == n {
          FirstLower(p, n, next);
        }
        if idx > n || !label_ {
          TableIsPlain(p, n, next, idx);
        }
        if cur.Some? {
          FoundBehind(Interval(cur.value.0, cur.value.1, n), rest.table, idx, InLabel(p, n, next, idx));
        }
      }
    } else {
      TableIsPlain(p, i + 1, cur, idx);
    }
  }

  lemma AtEnd(p: seq<Token>, cur: Current, idx: nat)
    requires Build(p, |p|, cur).ok && !Endpoint(Build(p, |p|, cur).table, idx) && idx <= |p|
    requires cur.Some? ==> cur.value.1 <= |p| && cur.value.1 < idx
    ensures Found(Build(p, |p|, cur).table, idx, InLabel(p, |p|, cur, idx))
  {
    if cur.Some? {
      assert Build(p, |p|, cur).table[0] == Interval(cur.value.0, cur.value.1, |p|);
    }
  }

  /** The open label is the only one an index before the next event can lie in. */
  lemma EarlierFound(cur: Current, n: nat, t: seq<Interval>, idx: nat)
    requires idx < n && From(t, n) && (cur.Some? ==> cur.value.1 < idx)
    ensures Found(Until(cur, n, Built(t, true)).table, idx, if cur.None? then "" else cur.value.0)
  {
    if cur.Some? {
      var s := [Interval(cur.value.0, cur.value.1, n)] + t;
      assert Matches(s[0], idx);
    }
  }

  /** A label begins an interval where its name ends. */
  lemma {:induction false} FirstLower(p: seq<Token>, i: nat, cur: Current)
    requires cur.Some? && Build(p, i, cur).ok
    ensures Build(p, i, cur).table != [] && Build(p, i, cur).table[0].lower == cur.value.1
    decreases |p| - i
  {
    if i < |p| && p[i].kind != After && p[i].kind != Label && p[i].kind != End {
      FirstLower(p, i + 1, cur);
    }
  }

  /** Off the ends of the intervals an index lies in at most one. */
  lemma FoundUnique(t: seq<Interval>, idx: nat, a: string, b: string)
    requires Ordered(t) && !Endpoint(t, idx) && Found(t, idx, a) && Found(t, idx, b)
    ensures a == b
  {
    if exists k :: 0 <= k < |t| && Matches(t[k], idx) {
      var j :| 0 <= j < |t| && Matches(t[j], idx) && t[j].name == a;
      var k :| 0 <= k < |t| && Matches(t[k], idx) && t[k].name == b;
      assert j == k;
    }
  }

  function Closed(t: seq<Interval>, cur: Current, upper: nat): seq<Interval> {
    if cur.None? then t else t + [Interval(cur.value.0, cur.value.1, upper)]
  }

  /** The intervals found so far, and those that `rest` will find. */
  predicate Sofar(b: Built, t: seq<Interval>, rest: Built) {
    b == Built(t + rest.table, rest.ok)
  }

  lemma ClosedSofar(cur: Current, n: nat, rest: Built, t: seq<Interval>, b: Built)
    requires Sofar(b, t, Until(cur, n, rest))
    ensures Sofar(b, Closed(t, cur, n), rest)
  {
    if cur.Some? {
      var v := Interval(cur.value.0, cur.value.1, n);
      assert t + ([v] + rest.table) == (t + [v]) + rest.table;
    }
  }

  lemma BuildStep(p: seq<Token>, i: nat, cur: Current, t: seq<Interval>, b: Built)
    requires Sofar(b, t, Build(p, i, cur))
    ensures i >= |p| ==> b == Built(Closed(t, cur, i), true)
    ensures i < |p| && (p[i].kind == After || p[i].kind == Label) ==>
              if RawAt(p, i + 1).kind == Value(Identifier) then
                Sofar(b, Closed(t, cur, i + 2), Build(p, i + 2, Some((p[i + 1].text, i + 2))))
              else b == Built(t, false)
    ensures i < |p| && p[i].kind == End ==> Sofar(b, Closed(t, cur, i + 1), Build(p, i + 1, None))
    ensures i < |p| && p[i].kind != After && p[i].kind != Label && p[i].kind != End
            ==> Sofar(b, t, Build(p, i + 1, cur))
  {
    hide Sofar, Until;
    if i >= |p| {
      ClosedSofar(cur, i, Built([], true), t, b);
      NothingLeft(Closed(t, cur, i), true, b);
    } else if p[i].kind == After || p[i].kind == Label {
      if RawAt(p, i + 1).kind == Value(Identifier) {
        ClosedSofar(cur, i + 2, Build(p, i + 2, Some((p[i + 1].text, i + 2))), t, b);
      } else {
        NothingLeft(t, false, b);
      }
    } else if p[i].kind == End {
      ClosedSofar(cur, i + 1, Build(p, i + 1, None), t, b);
    }
  }

  lemma NothingYet(b: Built)
    ensures Sofar(b, [], b)
  {
    assert [] + b.table == b.table;
  }

  lemma NothingLeft(t: seq<Interval>, ok: bool, b: Built)
    requires Sofar(b, t, Built([], ok))
    ensures b == Built(t, ok)
  {
    assert t + [] == t;
  }

  // ---------------------------------------------------------------- on the stored bytes

  predicate InsideTable(p: seq<Token>, t: seq<Interval>) {
    forall k :: 0 <= k < |t| ==> t[k].lower <= |p| && t[k].upper <= |p|
  }

  /** The intervals with the offsets of their ends. */
  function Shifted(c: Codes, p: seq<Token>, t: seq<Interval>): (r: seq<Interval>)
    requires AllStorable(c, p) && InsideTable(p, t)
    ensures |r| == |t|
    ensures forall k :: 0 <= k < |t| ==> r[k] == Interval(t[k].name, Offset(c, p, t[k].lower), Offset(c, p, t[k].upper))
  {
    seq(|t|, k requires 0 <= k < |t| => Interval(t[k].name, Offset(c, p, t[k].lower), Offset(c, p, t[k].upper)))
  }

  predicate InsideCurrent(p: seq<Token>, cur: Current) { cur.Some? ==> cur.value.1 <= |p| }

  function ShiftedCurrent(c: Codes, p: seq<Token>, cur: Current): Current
    requires AllStorable(c, p) && InsideCurrent(p, cur)
  {
    match cur
    case None => None
    case Some((name, lower)) => Some((name, Offset(c, p, lower)))
  }

  lemma ClosedShifted(c: Codes, p: seq<Token>, t: seq<Interval>, cur: Current, upper: nat)
    requires AllStorable(c, p) && InsideTable(p, t) && InsideCurrent(p, cur) && upper <= |p|
    ensures InsideTable(p, Closed(t, cur, upper))
    ensures Shifted(c, p, Closed(t, cur, upper))
         == Closed(Shifted(c, p, t), ShiftedCurrent(c, p, cur), Offset(c, p, upper))
  {
    hide Offset, AllStorable;
  }

  /** Offsets are in the order of the tokens. */
  lemma OffsetOrder(c: Codes, p: seq<Token>, j: nat, k: nat)
    requires AllStorable(c, p) && j <= |p| && k <= |p|
    ensures Offset(c, p, j) <= Offset(c, p, k) <==> j <= k
    ensures Offset(c, p, j) == Offset(c, p, k) <==> j == k
  {
    hide Offset, AllStorable;
    if j < k { OffsetsIncrease(c, p, j, k); }
    if k < j { OffsetsIncrease(c, p, k, j); }
  }

  lemma ShiftedOrdered(c: Codes, p: seq<Token>, t: seq<Interval>)
    requires AllStorable(c, p) && InsideTable(p, t) && Ordered(t)
    ensures Ordered(Shifted(c, p, t))
  {
    hide Offset, AllStorable;
    var r := Shifted(c, p, t);
    forall k | 0 <= k < |r| ensures r[k].lower <= r[k].upper {
      OffsetOrder(c, p, t[k].lower, t[k].upper);
    }
    forall j, k | 0 <= j < k < |r| ensures r[j].upper <= r[k].lower {
      OffsetOrder(c, p, t[j].upper, t[k].lower);
    }
  }

  lemma MatchesShifted(c: Codes, p: seq<Token>, v: Interval, k: nat)
    requires AllStorable(c, p) && v.lower <= |p| && v.upper <= |p| && k <= |p|
    ensures Matches(Interval(v.name, Offset(c, p, v.lower), Offset(c, p, v.upper)), Offset(c, p, k)) <==> Matches(v, k)
  {
    hide Offset, AllStorable;
    OffsetOrder(c, p, v.lower, k);
    OffsetOrder(c, p, k, v.upper);
  }

  lemma FoundShifted(c: Codes, p: seq<Token>, t: seq<Interval>, k: nat, name: string)
    requires AllStorable(c, p) && InsideTable(p, t) && k <= |p| && Found(Shifted(c, p, t), Offset(c, p, k), name)
    ensures Found(t, k, name)
  {
    hide Offset, AllStorable, Matches;
    var r, o := Shifted(c, p, t), Offset(c, p, k);
    forall i | 0 <= i < |t| ensures Matches(r[i], o) <==> Matches(t[i], k) {
      MatchesShifted(c, p, t[i], k);
    }
    if exists i :: 0 <= i < |r| && Matches(r[i], o) {
      var i :| 0 <= i < |r| && Matches(r[i], o) && r[i].name == name;
      assert Matches(t[i], k) && t[i].name == name;
    }
  }

  lemma {:induction false} BuildInside(p: seq<Token>, i: nat, cur: Current)
    requires i <= |p| && InsideCurrent(p, cur)
    ensures InsideTable(p, Build(p, i, cur).table)
    decreases |p| - i
  {
    if i < |p| {
      if p[i].kind == After || p[i].kind == Label {
        if RawAt(p, i + 1).kind == Value(Identifier) {
          BuildInside(p, i + 2, Some((p[i + 1].text, i + 2)));
        }
      } else if p[i].kind == End {
        BuildInside(p, i + 1, None);
      } else {
        BuildInside(p, i + 1, cur);
      }
    }
  }

  class LabelTable {
    var table: seq<Interval>

    constructor ()
      ensures table == []
    {
      table := [];
    }

    /** The open label, if any, ends at `upper`: label_put. */
    method Put(cur: Current, upper: nat)
      modifies this
      ensures table == Closed(old(table), cur, upper)
    {
      if cur.Some? {
        table := table + [Interval(cur.value.0, cur.value.1, upper)];
      }
    }

    /** label_build_idx_table: the intervals by byte offsets. */
    method BuildTable(program: StoredProgram) returns (ok: bool)
      requires program.Valid()
      modifies this, program
      ensures program.Valid() && ok == Build(program.tokens, 0, None).ok
      ensures InsideTable(program.tokens, Build(program.tokens, 0, None).table)
      ensures table == Shifted(program.codes, program.tokens, Build(program.tokens, 0, None).table)
    {
      hide Build, Until, Sofar, Closed, Offset, AllStorable, Shifted, InsideTable;
      OffsetEnds(program.codes, program.tokens);
      program.SetIdx(0, 0);
      table := [];
      var cur: Current := None;
      ghost var c, p := program.codes, program.tokens;
      ghost var b := Build(p, 0, None);
      ghost var curAt: Current, t0 := None, [];
      NothingYet(b);
      NothingShifted(c, p);
      while true
        invariant program.Valid() && InsideTable(p, t0) && InsideCurrent(p, curAt)
        invariant table == Shifted(c, p, t0) && cur == ShiftedCurrent(c, p, curAt)
        invariant Sofar(b, t0, Build(p, program.at, curAt))
        decreases |p| - program.at
      {
        BuildStep(p, program.at, curAt, t0, b);
        var t := program.GetTokenNoEval();
        if t.kind == After || t.kind == Label {
          t := program.GetTokenNoEval();
          if t.kind != Value(Identifier) {
            return false;
          }
          ClosedShifted(c, p, t0, curAt, program.at);
          Put(cur, program.idx);
          t0 := Closed(t0, curAt, program.at);
          cur, curAt := Some((t.text, program.idx)), Some((t.text, program.at));
        } else if t.kind == End {
          ClosedShifted(c, p, t0, curAt, program.at);
          Put(cur, program.idx);
          t0 := Closed(t0, curAt, program.at);
          cur, curAt := None, None;
        } else if t.kind == NullToken {
          ClosedShifted(c, p, t0, curAt, program.at);
          Put(cur, program.idx);
          return true;
        }
      }
    }

    /** label_get: `bsearch` with `idx_cmp`. */
    method LabelGet(idx: nat) returns (name: string)
      requires Ordered(table)
      ensures Found(table, idx, name)
    {
      var lo, hi := 0, |table|;
      while lo < hi
        invariant lo <= hi <= |table|
        invariant forall k :: 0 <= k < lo ==> !Matches(table[k], idx)
        invariant forall k :: hi <= k < |table| ==> !Matches(table[k], idx)
      {
        var mid := (lo + hi) / 2;
        if idx < table[mid].lower {
          hi := mid;
        } else if idx > table[mid].upper {
          lo := mid + 1;
        } else {
          return table[mid].name;
        }
      }
      name := "";
    }
  }

  lemma NothingShifted(c: Codes, p: seq<Token>)
    requires AllStorable(c, p)
    ensures InsideTable(p, []) && Shifted(c, p, []) == []
  {
  }

  /** On the table of a program `label_get` answers with the plain reading, wherever the cursor stands
      but at an end of an interval. */
  lemma LabelGetIsPlain(c: Codes, p: seq<Token>, k: nat, name: string)
    requires AllStorable(c, p) && Build(p, 0, None).ok && k <= |p| && !Endpoint(Build(p, 0, None).table, k)
    requires InsideTable(p, Build(p, 0, None).table)
             ==> Found(Shifted(c, p, Build(p, 0, None).table), Offset(c, p, k), name)
    ensures InsideTable(p, Build(p, 0, None).table) && Ordered(Shifted(c, p, Build(p, 0, None).table))
    ensures name == InLabel(p, 0, None, k)
  {
    hide Found, Ordered, Endpoint, Offset, AllStorable, InsideTable, Shifted;
    var t := Build(p, 0, None).table;
    BuildOrdered(p, 0, None);
    BuildInside(p, 0, None);
    ShiftedOrdered(c, p, t);
    FoundShifted(c, p, t, k, name);
    TableIsPlain(p, 0, None, k);
    FoundUnique(t, k, name, InLabel(p, 0, None, k));
  }
}
