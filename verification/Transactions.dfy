/** Open transactions (source/secs.c:50-152 and 205-224): primary messages that wait for a reply, in
    a table whose slots are used again. */
module Transactions {
  import opened Tokens
  import opened Machine

  datatype Entry = Entry(active: bool, program: nat, system: nat, timer: nat, end: int)

  const SLOTS := 50

  type Table = t: seq<Entry> | |t| == SLOTS witness seq(SLOTS, _ => Entry(false, 0, 0, 0, 0))

  // ---------------------------------------------------------------- the table

  /** Entries whose time is up are no longer active. */
  function Cleaned(t: Table, now: int): (r: Table)
    ensures forall i :: 0 <= i < SLOTS ==>
              r[i] == if t[i].active && t[i].end < now then t[i].(active := false) else t[i]
  {
    seq(SLOTS, i requires 0 <= i < SLOTS => if t[i].active && t[i].end < now then t[i].(active := false) else t[i])
  }

  /** The first slot from `i` on that `p` holds of. */
  function Find(t: Table, p: Entry -> bool, i: nat): (k: nat)
    requires i <= SLOTS
    ensures i <= k <= SLOTS && (k < SLOTS ==> p(t[k])) && forall j :: i <= j < k ==> !p(t[j])
    decreases SLOTS - i
  {
    if i == SLOTS || p(t[i]) then i else Find(t, p, i + 1)
  }

  function Free(t: Table): nat { Find(t, (e: Entry) => !e.active, 0) }
  function Slot(t: Table, system: nat): nat { Find(t, (e: Entry) => e.system == system, 0) }

  /** A full table ends the process. */
  function Add(t: Table, program: nat, system: nat, timer: nat, seconds: nat, now: int): Option<Table> {
    var c := Cleaned(t, now);
    if Free(c) == SLOTS then None else Some(c[Free(c) := Entry(true, program, system, timer, now + seconds)])
  }

  /** The program index for a reply, if one is expected and in time. Whether the entry is active is
      not asked. */
  function Del(t: Table, system: nat, now: int): (Option<nat>, Table) {
    var k := Slot(t, system);
    if k == SLOTS || now > t[k].end then (None, t) else (Some(t[k].program), t[k := t[k].(active := false)])
  }

  /** The timer that a reply stops, where it is answered: source/secs.c:139. */
  function TimerOf(t: Table, system: nat): nat {
    var k := Slot(t, system);
    if k == SLOTS then 0 else t[k].timer
  }

  function NextSystem(s: nat): nat {
    if s == 0 then 1 else (s + 1) % TWO_32
  }

  class OpenTransactions {
    const table: array<Entry>
    var system: nat

    ghost predicate Valid()
      reads this
    {
      table.Length == SLOTS && system < TWO_32
    }

    ghost function Contents(): Table
      reads this, table
      requires Valid()
    {
      table[..]
    }

    constructor ()
      ensures Valid() && fresh(table) && system == 0 && Contents() == NoEntries()
    {
      table := new Entry[SLOTS](_ => Entry(false, 0, 0, 0, 0));
      system := 0;
      new;
      assert table[..] == NoEntries();
    }

    /** secs_inc_system_bytes */
    method Increment() returns (s: nat)
      requires Valid()
      modifies this`system
      ensures Valid() && s == system == NextSystem(old(system))
    {
      if system == 0 {
        system := 1;
      } else {
        system := (system + 1) % TWO_32;
      }
      s := system;
    }

    /** open_trans_table_add; `ok` is false where the source ends the process. */
    method AddEntry(program: nat, sys: nat, timer: nat, seconds: nat, now: int) returns (ok: bool)
      requires Valid()
      modifies table
      ensures Valid()
      ensures match Add(old(Contents()), program, sys, timer, seconds, now)
              case None => !ok
              case Some(t) => ok && Contents() == t
    {
      ghost var t0 := Contents();
      for i := 0 to SLOTS
        invariant forall j :: 0 <= j < SLOTS ==> table[j] == if j < i then Cleaned(t0, now)[j] else t0[j]
      {
        if table[i].active && table[i].end < now {
          table[i] := table[i].(active := false);
        }
      }
      assert Contents() == Cleaned(t0, now);
      var i := 0;
      while i < SLOTS
        invariant i <= SLOTS && Contents() == Cleaned(t0, now)
        invariant Free(Cleaned(t0, now)) == Find(Cleaned(t0, now), (e: Entry) => !e.active, i)
      {
        if !table[i].active {
          table[i] := Entry(true, program, sys, timer, now + seconds);
          return true;
        }
        i := i + 1;
      }
      ok := false;
    }

    /** open_trans_table_del */
    method DelEntry(sys: nat, now: int) returns (program: Option<nat>, timer: nat)
      requires Valid()
      modifies table
      ensures Valid() && (program, Contents()) == Del(old(Contents()), sys, now)
      ensures program.Some? ==> timer == TimerOf(old(Contents()), sys)
    {
      var i := 0;
      timer := 0;
      while i < SLOTS
        invariant i <= SLOTS && Contents() == old(Contents())
        invariant Slot(Contents(), sys) == Find(Contents(), (e: Entry) => e.system == sys, i)
      {
        if table[i].system == sys {
          if now > table[i].end {
            return None, 0;
          }
          table[i] := table[i].(active := false);
          return Some(table[i].program), table[i].timer;
        }
        i := i + 1;
      }
      program := None;
    }
  }

  function NoEntries(): Table { seq(SLOTS, _ => Entry(false, 0, 0, 0, 0)) }

  // ---------------------------------------------------------------- runs

  /** A primary message sent, with a reply wanted or not, and a reply received. */
  datatype Call =
    | Send(wait: bool, program: nat, timer: nat, seconds: nat, at: int)
    | Reply(system: nat, at: int)

  datatype World = World(t: Table, system: nat)

  /** What a call answers, if the process goes on. */
  function Do(w: World, c: Call): (r: Option<(World, Option<nat>)>)
    requires w.system < TWO_32
    ensures (r.Some? ==> r.value.0.system < TWO_32) && (c.Reply? ==> r.Some?)
  {
    match c
    case Send(wait, program, timer, seconds, at) =>
      var s := NextSystem(w.system);
      if !wait then Some((World(w.t, s), None))
      else
        (match Add(w.t, program, s, timer, seconds, at)
         case None => None
         case Some(t) => Some((World(t, s), None)))
    case Reply(s, at) =>
      var (p, t) := Del(w.t, s, at);
      Some((World(t, w.system), p))
  }

  /** A transaction that waits: where the program goes on, and until when. */
  datatype Waiting = Waiting(program: nat, end: int)

  /** The transactions without the table: how many messages were sent, which wait, which have been
      answered, and the time. */
  datatype Ledger = Ledger(sent: nat, open: map<nat, Waiting>, answered: set<nat>, now: int)

  function Enter(g: Ledger, c: Call): Ledger {
    match c
    case Send(wait, program, _, seconds, at) =>
      Ledger(g.sent + 1, if wait then g.open[g.sent + 1 := Waiting(program, at + seconds)] else g.open, g.answered, at)
    case Reply(s, at) =>
      if s in g.open && at <= g.open[s].end then Ledger(g.sent, g.open - {s}, g.answered + {s}, at) else g.(now := at)
  }

  /** The answer due: the index for the first reply in time, none for a late or unexpected one. What a
      second reply gets depends on the slot, and `SecondReply` says how. */
  predicate Due(g: Ledger, c: Call, answer: Option<nat>) {
    match c
    case Send(_, _, _, _, _) => true
    case Reply(s, at) =>
      if s in g.open then answer == if at <= g.open[s].end then Some(g.open[s].program) else None
      else s !in g.answered ==> answer == None
  }

  /** No number is in two slots, every slot used belongs to a message of the ledger, and an active one to
      a message that is not answered. */
  ghost predicate Slots(t: Table, g: Ledger) {
    && (forall i :: 0 <= i < SLOTS ==> t[i].system <= g.sent)
    && (forall i, j :: 0 <= i < j < SLOTS ==> t[i].system == t[j].system ==> t[i].system == 0)
    && (forall i :: 0 <= i < SLOTS ==> t[i].system == 0 ==> !t[i].active && t[i].end == 0)
    && (forall i :: 0 <= i < SLOTS ==> t[i].system != 0 ==> t[i].system in g.open || t[i].system in g.answered)
    && (forall i :: 0 <= i < SLOTS ==> t[i].active ==> t[i].system in g.open)
    && (forall i :: 0 <= i < SLOTS ==> t[i].system in g.open ==>
          t[i].program == g.open[t[i].system].program && t[i].end == g.open[t[i].system].end)
  }

  predicate Numbered(g: Ledger) {
    && (forall s :: s in g.open ==> 0 < s <= g.sent && s !in g.answered)
    && (forall s :: s in g.answered ==> 0 < s <= g.sent)
  }

  predicate InTable(t: Table, s: nat) {
    exists i :: 0 <= i < SLOTS && t[i].active && t[i].system == s
  }

  /** What waits and is in time has a slot. */
  ghost predicate Kept(t: Table, g: Ledger) {
    forall s :: s in g.open && g.open[s].end >= g.now ==> InTable(t, s)
  }

  /** The table holds what the ledger says. */
  ghost predicate Holds(w: World, g: Ledger) {
    w.system == g.sent < TWO_32 && g.now >= 0 && Slots(w.t, g) && Numbered(g) && Kept(w.t, g)
  }

  lemma ReplyDue(t: Table, g: Ledger, s: nat, at: int)
    requires Slots(t, g) && Numbered(g) && Kept(t, g) && at >= g.now && at > 0
    ensures var (p, t1) := Del(t, s, at);
            && Due(g, Reply(s, at), p) && Slots(t1, Enter(g, Reply(s, at))) && (p.Some? ==> Slot(t, s) < SLOTS)
  {
    hide Find;
    if s in g.open && g.open[s].end >= g.now {
      assert InTable(t, s);
    }
  }

  lemma ReplyKeeps(t: Table, g: Ledger, s: nat, at: int)
    requires Slots(t, g) && Numbered(g) && Kept(t, g) && at >= g.now
    ensures Kept(Del(t, s, at).1, Enter(g, Reply(s, at)))
  {
    hide Slots, Find;
    var (p, t1) := Del(t, s, at);
    var g1 := Enter(g, Reply(s, at));
    forall x | x in g1.open && g1.open[x].end >= g1.now ensures InTable(t1, x) {
      assert InTable(t, x);
      var i :| 0 <= i < SLOTS && t[i].active && t[i].system == x;
      assert i == Slot(t, s) ==> t[i].end >= at && x != s by { SlotOpen(t, g, s, i, at, g1); }
      assert t1[i].active && t1[i].system == x;
    }
  }

  lemma SlotOpen(t: Table, g: Ledger, s: nat, i: nat, at: int, g1: Ledger)
    requires Slots(t, g) && i < SLOTS && t[i].system in g1.open && g1 == Enter(g, Reply(s, at))
             && g1.open[t[i].system].end >= at
    ensures i == Slot(t, s) ==> t[i].end >= at && t[i].system != s
  {
    hide Find;
  }

  lemma ReplyAnswered(w: World, g: Ledger, s: nat, at: int)
    requires Holds(w, g) && at >= g.now && at > 0
    ensures var r := Do(w, Reply(s, at)).value;
            Due(g, Reply(s, at), r.1) && Holds(r.0, Enter(g, Reply(s, at)))
  {
    hide Slots, Kept, Del, Slot;
    ReplyDue(w.t, g, s, at);
    ReplyKeeps(w.t, g, s, at);
  }

  lemma AddSlots(t: Table, g: Ledger, c: Call, t1: Table)
    requires Slots(t, g) && Numbered(g) && c.Send? && c.wait
    requires Add(t, c.program, g.sent + 1, c.timer, c.seconds, c.at) == Some(t1)
    ensures Slots(t1, Enter(g, c))
  {
    hide Find;
  }

  lemma AddKeeps(t: Table, g: Ledger, c: Call, t1: Table)
    requires Slots(t, g) && Kept(t, g) && c.Send? && c.wait && c.at >= g.now
    requires Add(t, c.program, g.sent + 1, c.timer, c.seconds, c.at) == Some(t1)
    ensures Kept(t1, Enter(g, c))
  {
    hide Find;
    var t0 := Cleaned(t, c.at);
    var k := Free(t0);
    var g1 := Enter(g, c);
    forall x | x in g1.open && g1.open[x].end >= g1.now ensures InTable(t1, x) {
      if x == g.sent + 1 {
        assert t1[k].active && t1[k].system == x;
      } else {
        assert InTable(t, x);
        var i :| 0 <= i < SLOTS && t[i].active && t[i].system == x;
        assert t[i].end == g.open[x].end;
        assert t0[i] == t[i] && i != k;
        assert t1[i].active && t1[i].system == x;
      }
    }
  }

  lemma SendEntered(w: World, g: Ledger, c: Call, w1: World)
    requires Holds(w, g) && c.Send? && c.at >= g.now && g.sent + 1 < TWO_32 && Do(w, c) == Some((w1, None))
    ensures Holds(w1, Enter(g, c))
  {
    hide Add;
    assert NextSystem(w.system) == g.sent + 1;
    if c.wait {
      AddSlots(w.t, g, c, w1.t);
      AddKeeps(w.t, g, c, w1.t);
    }
  }

  // ---------------------------------------------------------------- when the table is full

  /** The table has no place for a further message exactly when all its entries are active and in time. */
  lemma FullTable(t: Table, program: nat, system: nat, timer: nat, seconds: nat, now: int)
    ensures Add(t, program, system, timer, seconds, now).None? <==>
              forall i :: 0 <= i < SLOTS ==> t[i].active && t[i].end >= now
  {
    hide Find;
    var c := Cleaned(t, now);
    assert forall i :: 0 <= i < SLOTS ==> (c[i].active <==> t[i].active && t[i].end >= now);
  }

  /** The messages that wait and are in time. */
  function InTime(g: Ledger, at: int): set<nat> {
    set s | s in g.open && g.open[s].end >= at
  }

  /** The numbers in the slots of `a`. */
  function NumbersIn(t: Table, a: set<nat>): set<nat>
    requires forall i :: i in a ==> i < SLOTS
  {
    set i | i in a :: t[i].system
  }

  lemma {:induction false} NumbersCount(t: Table, a: set<nat>)
    requires forall i :: i in a ==> i < SLOTS
    ensures |NumbersIn(t, a)| <= |a|
    ensures (forall i, j :: i in a && j in a && i != j ==> t[i].system != t[j].system) ==> |NumbersIn(t, a)| == |a|
    decreases |a|
  {
    if a != {} {
      var i :| i in a;
      NumbersCount(t, a - {i});
      assert NumbersIn(t, a) == NumbersIn(t, a - {i}) + {t[i].system};
    }
  }

  predicate Waits(e: Entry, at: int) { e.active && e.end >= at }

  /** The messages of the slots in `a`, and whether all of them wait in time. */
  lemma SlotsWait(t: Table, g: Ledger, a: set<nat>, at: int)
    requires Slots(t, g) && forall i :: i in a ==> i < SLOTS && Waits(t[i], at)
    ensures NumbersIn(t, a) <= InTime(g, at) && |NumbersIn(t, a)| == |a|
  {
    NumbersCount(t, a);
  }

  /** A message that waits in time is in a slot that does. */
  lemma WaitsInSlot(t: Table, g: Ledger, a: set<nat>, at: int)
    requires Slots(t, g) && Kept(t, g) && at >= g.now
    requires forall i: nat :: i in a <==> i < SLOTS && Waits(t[i], at)
    ensures InTime(g, at) <= NumbersIn(t, a)
  {
    hide Slots;
    forall s | s in InTime(g, at) ensures s in NumbersIn(t, a) {
      assert InTable(t, s);
      var i: nat :| i < SLOTS && t[i].active && t[i].system == s;
      assert Waits(t[i], at) by { SlotInTime(t, g, i, at); }
      assert i in a;
    }
  }

  lemma SlotInTime(t: Table, g: Ledger, i: nat, at: int)
    requires Slots(t, g) && i < SLOTS && t[i].active && t[i].system in InTime(g, at)
    ensures Waits(t[i], at)
  {
  }

  function WaitingSlots(t: Table, at: int, n: nat): (a: set<nat>)
    requires n <= SLOTS
    ensures forall i: nat :: i in a <==> i < n && Waits(t[i], at)
    ensures |a| <= n && (|a| == n <==> forall i: nat :: i < n ==> Waits(t[i], at))
  {
    if n == 0 then {}
    else
      var a := WaitingSlots(t, at, n - 1);
      if Waits(t[n - 1], at) then a + {n - 1} else a
  }

  /** As many messages wait in time as slots do; so all slots do exactly when 50 messages do. */
  lemma FullWhenMany(t: Table, g: Ledger, at: int)
    requires Slots(t, g) && Kept(t, g) && at >= g.now
    ensures (forall i :: 0 <= i < SLOTS ==> t[i].active && t[i].end >= at) <==> |InTime(g, at)| >= SLOTS
  {
    hide Slots, Kept, InTime, NumbersIn;
    var a := WaitingSlots(t, at, SLOTS);
    SlotsWait(t, g, a, at);
    WaitsInSlot(t, g, a, at);
    assert InTime(g, at) == NumbersIn(t, a);
    assert (forall i: nat :: i < SLOTS ==> Waits(t[i], at)) <==>
           (forall i :: 0 <= i < SLOTS ==> t[i].active && t[i].end >= at);
  }

  /** A message that wants a reply ends the process if and only if 50 others wait in time. */
  lemma SendEnds(w: World, g: Ledger, c: Call)
    requires Holds(w, g) && w.system < TWO_32 && c.at >= g.now
    ensures Do(w, c).None? <==> c.Send? && c.wait && |InTime(g, c.at)| >= SLOTS
  {
    hide Slots, Kept, Add, InTime;
    if c.Send? && c.wait {
      FullTable(w.t, c.program, NextSystem(w.system), c.timer, c.seconds, c.at);
      FullWhenMany(w.t, g, c.at);
    }
  }

  // ---------------------------------------------------------------- every run

  /** Every call of a run in which time does not go back and fewer than 2^32 messages are sent is
      answered as it is due, and a call ends the process exactly where it sends a message while 50
      others wait in time. */
  ghost predicate AllDue(w: World, g: Ledger, calls: seq<Call>)
    requires w.system < TWO_32
    decreases |calls|
  {
    calls == [] || (calls[0].at >= g.now && calls[0].at > 0 && g.sent + 1 < TWO_32 ==>
      (Do(w, calls[0]).None? <==> calls[0].Send? && calls[0].wait && |InTime(g, calls[0].at)| >= SLOTS) &&
      match Do(w, calls[0])
      case None => true
      case Some(r) => Due(g, calls[0], r.1) && r.0.system < TWO_32 && AllDue(r.0, Enter(g, calls[0]), calls[1..]))
  }

  lemma {:induction false} RunAnswers(w: World, g: Ledger, calls: seq<Call>)
    requires Holds(w, g)
    ensures AllDue(w, g, calls)
    decreases |calls|
  {
    hide Holds, Due, Enter, Add, Del, InTime;
    assert w.system < TWO_32 by { HoldsSystem(w, g); }
    if calls != [] && calls[0].at >= g.now && calls[0].at > 0 && g.sent + 1 < TWO_32 {
      var c := calls[0];
      SendEnds(w, g, c);
      if Do(w, c).Some? {
        var r := Do(w, c).value;
        if c.Send? {
          SendEntered(w, g, c, r.0);
          assert Due(g, c, r.1) by { SendDue(g, c, r.1); }
        } else {
          ReplyAnswered(w, g, c.system, c.at);
        }
        HoldsSystem(r.0, Enter(g, c));
        RunAnswers(r.0, Enter(g, c), calls[1..]);
      }
    }
  }

  lemma SendDue(g: Ledger, c: Call, answer: Option<nat>)
    requires c.Send?
    ensures Due(g, c, answer)
  {
  }

  lemma HoldsSystem(w: World, g: Ledger)
    requires Holds(w, g)
    ensures w.system < TWO_32
  {
  }

  lemma EveryRunAnswers(calls: seq<Call>)
    ensures AllDue(World(NoEntries(), 0), Ledger(0, map[], {}, 0), calls)
  {
    hide AllDue;
    RunAnswers(World(NoEntries(), 0), Ledger(0, map[], {}, 0), calls);
  }

  // ---------------------------------------------------------------- second replies

  /** The world behind a run, if the process goes on. */
  function RunAll(w: World, calls: seq<Call>): (r: Option<World>)
    requires w.system < TWO_32
    ensures r.Some? ==> r.value.system < TWO_32
    decreases |calls|
  {
    if calls == [] then Some(w)
    else
      match Do(w, calls[0])
      case None => None
      case Some(r) => RunAll(r.0, calls[1..])
  }

  function Entered(g: Ledger, calls: seq<Call>): Ledger
    decreases |calls|
  {
    if calls == [] then g else Entered(Enter(g, calls[0]), calls[1..])
  }

  /** Time does not go back, and fewer than 2^32 messages are sent. */
  predicate Orderly(g: Ledger, calls: seq<Call>)
    decreases |calls|
  {
    calls == [] ||
      (calls[0].at >= g.now && calls[0].at > 0 && g.sent + 1 < TWO_32 && Orderly(Enter(g, calls[0]), calls[1..]))
  }

  predicate TakesSlot(t: Table, c: Call, k: nat) {
    c.Send? && c.wait && Free(Cleaned(t, c.at)) == k
  }

  /** A message of the run that waits for a reply is put into slot `k`. */
  predicate Taken(w: World, calls: seq<Call>, k: nat)
    requires w.system < TWO_32
    decreases |calls|
  {
    calls != [] && (TakesSlot(w.t, calls[0], k) ||
      match Do(w, calls[0])
      case None => false
      case Some(r) => Taken(r.0, calls[1..], k))
  }

  lemma DoHolds(w: World, g: Ledger, c: Call, r: (World, Option<nat>))
    requires Holds(w, g) && w.system < TWO_32 && c.at >= g.now && c.at > 0 && g.sent + 1 < TWO_32 && Do(w, c) == Some(r)
    ensures Holds(r.0, Enter(g, c))
  {
    hide Holds, Enter, Add, Del;
    if c.Send? {
      SendEntered(w, g, c, r.0);
    } else {
      ReplyAnswered(w, g, c.system, c.at);
    }
  }

  lemma {:induction false} AfterHolds(w: World, g: Ledger, calls: seq<Call>)
    requires Holds(w, g) && w.system < TWO_32 && Orderly(g, calls) && RunAll(w, calls).Some?
    ensures Holds(RunAll(w, calls).value, Entered(g, calls))
    decreases |calls|
  {
    hide Holds, Enter, Do;
    if calls != [] {
      var r := Do(w, calls[0]).value;
      DoHolds(w, g, calls[0], r);
      AfterHolds(r.0, Enter(g, calls[0]), calls[1..]);
    }
  }

  /** No message is sent while 50 others wait in time. */
  predicate FewWaiting(g: Ledger, calls: seq<Call>)
    decreases |calls|
  {
    calls == [] ||
      (&& (calls[0].Send? && calls[0].wait ==> |InTime(g, calls[0].at)| < 50)
       && FewWaiting(Enter(g, calls[0]), calls[1..]))
  }

  lemma {:induction false} RunsOn(w: World, g: Ledger, calls: seq<Call>)
    requires Holds(w, g) && w.system < TWO_32 && Orderly(g, calls)
    ensures RunAll(w, calls).Some? <==> FewWaiting(g, calls)
    decreases |calls|
  {
    hide Holds, Enter, Do, InTime;
    if calls != [] {
      SendEnds(w, g, calls[0]);
      if Do(w, calls[0]).Some? {
        var r := Do(w, calls[0]).value;
        DoHolds(w, g, calls[0], r);
        RunsOn(r.0, Enter(g, calls[0]), calls[1..]);
      }
    }
  }

  /** From the start of the program a run goes on to its end if and only if no message that wants a reply
      is sent while 50 others wait in time. */
  lemma EveryRunGoesOn(calls: seq<Call>)
    requires Orderly(Ledger(0, map[], {}, 0), calls)
    ensures RunAll(World(NoEntries(), 0), calls).Some? <==> FewWaiting(Ledger(0, map[], {}, 0), calls)
  {
    hide RunAll, FewWaiting, Orderly;
    RunsOn(World(NoEntries(), 0), Ledger(0, map[], {}, 0), calls);
  }

  /** The message numbered `s` has slot `k`. */
  predicate Stands(t: Table, s: nat, k: nat, x: Waiting) {
    k < SLOTS && t[k].system == s && t[k].program == x.program && t[k].end == x.end
  }

  predicate Gone(t: Table, s: nat) {
    forall i :: 0 <= i < SLOTS ==> t[i].system != s
  }

  /** One call leaves a slot alone, or puts another message into it. */
  lemma SlotStep(w: World, g: Ledger, c: Call, s: nat, k: nat, x: Waiting)
    requires Holds(w, g) && Stands(w.t, s, k, x) && 0 < s <= g.sent
    requires g.sent + 1 < TWO_32 && Do(w, c).Some?
    ensures var t1 := Do(w, c).value.0.t; if TakesSlot(w.t, c, k) then Gone(t1, s) else Stands(t1, s, k, x)
  {
    hide Find, Numbered, Kept;
  }

  lemma GoneStep(w: World, g: Ledger, c: Call, s: nat)
    requires Holds(w, g) && Gone(w.t, s) && 0 < s <= g.sent && g.sent + 1 < TWO_32 && Do(w, c).Some?
    ensures Gone(Do(w, c).value.0.t, s)
  {
    hide Find, Numbered, Kept, Slots;
  }

  lemma SentGrows(g: Ledger, c: Call)
    ensures Enter(g, c).sent >= g.sent
  {
  }

  lemma {:induction false} GoneStays(w: World, g: Ledger, calls: seq<Call>, s: nat)
    requires Holds(w, g) && w.system < TWO_32 && Orderly(g, calls) && RunAll(w, calls).Some? && Gone(w.t, s)
             && 0 < s <= g.sent
    ensures Gone(RunAll(w, calls).value.t, s)
    decreases |calls|
  {
    hide Holds, Enter, Do, Gone;
    if calls != [] {
      var r := Do(w, calls[0]).value;
      DoHolds(w, g, calls[0], r);
      GoneStep(w, g, calls[0], s);
      SentGrows(g, calls[0]);
      GoneStays(r.0, Enter(g, calls[0]), calls[1..], s);
    }
  }

  lemma {:induction false} StandsOrGone(w: World, g: Ledger, calls: seq<Call>, s: nat, k: nat, x: Waiting)
    requires Holds(w, g) && w.system < TWO_32 && Orderly(g, calls) && RunAll(w, calls).Some?
    requires Stands(w.t, s, k, x) && 0 < s <= g.sent
    ensures var t1 := RunAll(w, calls).value.t; if Taken(w, calls, k) then Gone(t1, s) else Stands(t1, s, k, x)
    decreases |calls|
  {
    hide Holds, Enter, Do, Gone, Stands, TakesSlot;
    if calls != [] {
      var r := Do(w, calls[0]).value;
      DoHolds(w, g, calls[0], r);
      SlotStep(w, g, calls[0], s, k, x);
      SentGrows(g, calls[0]);
      if TakesSlot(w.t, calls[0], k) {
        GoneStays(r.0, Enter(g, calls[0]), calls[1..], s);
      } else {
        StandsOrGone(r.0, Enter(g, calls[0]), calls[1..], s, k, x);
      }
    }
  }

  /** A reply to a number whose slot is known, or that has none. */
  lemma ReplyAt(w: World, g: Ledger, s: nat, k: nat, x: Waiting, at: int)
    requires Holds(w, g) && w.system < TWO_32 && 0 < s
    ensures Stands(w.t, s, k, x) ==>
              Slot(w.t, s) == k && Do(w, Reply(s, at)).value.1 == if at > x.end then None else Some(x.program)
    ensures Gone(w.t, s) ==> Do(w, Reply(s, at)).value.1 == None
  {
    hide Find, Numbered, Kept;
  }

  /** The first reply in time to a message that waits is answered. A second one, after any calls in
      between, is answered with the same index if and only if no message of these calls has taken the
      slot and the deadline has not passed. */
  lemma SecondReply(w: World, g: Ledger, s: nat, at: int, later: seq<Call>, at2: int)
    requires Holds(w, g) && w.system < TWO_32 && s in g.open && g.now <= at <= g.open[s].end && at > 0
    requires var r, g1 := Do(w, Reply(s, at)).value, Enter(g, Reply(s, at));
             Orderly(g1, later) && RunAll(r.0, later).Some?
    ensures var r, x := Do(w, Reply(s, at)).value, g.open[s];
            var again := Do(RunAll(r.0, later).value, Reply(s, at2)).value.1;
            && r.1 == Some(x.program) && Slot(w.t, s) < SLOTS
            && again == if Taken(r.0, later, Slot(w.t, s)) || at2 > x.end then None else Some(x.program)
  {
    hide RunAll, Taken, Orderly, Do, Enter, Slot, Gone;
    var r, x, k := Do(w, Reply(s, at)).value, g.open[s], Slot(w.t, s);
    var g1 := Enter(g, Reply(s, at));
    OpenStands(w, g, s, at);
    ReplyAt(w, g, s, k, x, at);
    ReplyAnswered(w, g, s, at);
    StandsOrGone(r.0, g1, later, s, k, x);
    AfterHolds(r.0, g1, later);
    ReplyAt(RunAll(r.0, later).value, Entered(g1, later), s, k, x, at2);
  }

  lemma OpenStands(w: World, g: Ledger, s: nat, at: int)
    requires Holds(w, g) && w.system < TWO_32 && s in g.open && g.now <= at <= g.open[s].end
    ensures 0 < s <= g.sent && Stands(w.t, s, Slot(w.t, s), g.open[s])
    ensures Stands(Do(w, Reply(s, at)).value.0.t, s, Slot(w.t, s), g.open[s]) && Enter(g, Reply(s, at)).sent == g.sent
  {
    hide Find;
    assert InTable(w.t, s);
  }

  /** The same for every run from the start of the program. */
  lemma EverySecondReply(before: seq<Call>, s: nat, at: int, later: seq<Call>, at2: int)
    requires var w0, g0 := World(NoEntries(), 0), Ledger(0, map[], {}, 0);
             && Orderly(g0, before) && RunAll(w0, before).Some?
             && var w, g := RunAll(w0, before).value, Entered(g0, before);
             && s in g.open && g.now <= at <= g.open[s].end && at > 0
             && var r, g1 := Do(w, Reply(s, at)).value, Enter(g, Reply(s, at));
             Orderly(g1, later) && RunAll(r.0, later).Some?
    ensures var w := RunAll(World(NoEntries(), 0), before).value;
            var x := Entered(Ledger(0, map[], {}, 0), before).open[s];
            var r := Do(w, Reply(s, at)).value;
            && r.1 == Some(x.program)
            && Do(RunAll(r.0, later).value, Reply(s, at2)).value.1
               == if Taken(r.0, later, Slot(w.t, s)) || at2 > x.end then None else Some(x.program)
  {
    hide RunAll, Taken, Orderly, Do, Enter, Slot, Entered;
    var w0, g0 := World(NoEntries(), 0), Ledger(0, map[], {}, 0);
    AfterHolds(w0, g0, before);
    SecondReply(RunAll(w0, before).value, Entered(g0, before), s, at, later, at2);
  }

  /** A message sent, and both replies to it answered. */
  lemma AnsweredTwice()
    ensures var sent := RunAll(World(NoEntries(), 0), [Send(true, 7, 0, 10, 1)]);
            sent.Some? &&
            var r := Do(sent.value, Reply(1, 2)).value;
            r.1 == Some(7) && Do(r.0, Reply(1, 3)).value.1 == Some(7)
  {
    var c := Send(true, 7, 0, 10, 1);
    var t := Cleaned(NoEntries(), 1);
    assert !t[0].active;
    assert Free(t) == 0;
    var w1 := Do(World(NoEntries(), 0), c).value.0;
    assert RunAll(World(NoEntries(), 0), [c]) == RunAll(w1, []) == Some(w1);
  }
}
