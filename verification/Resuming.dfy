/** Where the program goes on when a reply comes or a timer runs out: the index handed to the table of
    open transactions and to the timers is that of the cursor, so it is the offset of a token, and so
    is the index the cursor is set to later. One token is read there before the run goes on
    (source/send_secs.c:297-308, source/resume.c:77-93). */
module Resuming {
  import opened Tokens
  import opened Programs
  import opened ProgramText
  import opened Transactions
  import opened Timers

  /** Every index kept is the offset of a token. */
  ghost predicate EntriesOnTokens(c: Codes, p: seq<Token>, t: seq<Entry>)
    requires AllStorable(c, p)
  {
    forall i :: 0 <= i < |t| ==> Boundary(c, p, t[i].program)
  }

  ghost predicate TimersOnTokens(c: Codes, p: seq<Token>, t: seq<Timer>)
    requires AllStorable(c, p)
  {
    forall i :: 0 <= i < |t| ==> Boundary(c, p, t[i].program)
  }

  /** The timers the entries name are there. */
  predicate TimersNamed(t: seq<Entry>) { forall i :: 0 <= i < |t| ==> t[i].timer < MAX_TIMERS }

  /** At the start all indices are 0, that of the first token. */
  lemma NothingKept(c: Codes, p: seq<Token>)
    requires AllStorable(c, p)
    ensures EntriesOnTokens(c, p, NoEntries()) && TimersNamed(NoEntries())
    ensures TimersOnTokens(c, p, seq(MAX_TIMERS, _ => Timer(false, 0, 0)))
  {
    hide Boundary, Offset;
    OffsetEnds(c, p);
    BoundaryAt(c, p, 0);
  }

  /** No call puts another index into the table than one handed to it, and none is answered but one of
      the table. */
  lemma CallKeepsIndices(w: World, call: Call, c: Codes, p: seq<Token>)
    requires AllStorable(c, p) && w.system < 0x1_0000_0000 && EntriesOnTokens(c, p, w.t)
    requires call.Send? ==> Boundary(c, p, call.program)
    ensures var r := Do(w, call);
            r.Some? ==> EntriesOnTokens(c, p, r.value.0.t) && (r.value.1.Some? ==> Boundary(c, p, r.value.1.value))
  {
    hide Boundary, Find;
  }

  /** In every run the messages of which are sent from tokens every answer leads to a token. */
  lemma {:induction false} AnswersOnTokens(w: World, calls: seq<Call>, c: Codes, p: seq<Token>, call: Call)
    requires AllStorable(c, p) && w.system < 0x1_0000_0000 && EntriesOnTokens(c, p, w.t)
    requires (forall i :: 0 <= i < |calls| && calls[i].Send? ==> Boundary(c, p, calls[i].program)) && call.Reply?
    ensures RunAll(w, calls).Some? ==>
              var answer := Do(RunAll(w, calls).value, call).value.1; answer.Some? ==> Boundary(c, p, answer.value)
    decreases |calls|
  {
    hide Boundary, Do, EntriesOnTokens;
    if calls == [] {
      CallKeepsIndices(w, call, c, p);
    } else if Do(w, calls[0]).Some? {
      CallKeepsIndices(w, calls[0], c, p);
      AnswersOnTokens(Do(w, calls[0]).value.0, calls[1..], c, p, call);
    }
  }

  // ---------------------------------------------------------------- the timer of an answered message

  /** Between the first reply to a message and the second a timer is started. The second reply stops
      the timer of the message; it is the one just started if and only if all timers below it run. */
  lemma SecondReplyStops(t: Table, timers: seq<Timer>, s: nat, at: int, at2: int, x: Timer)
    requires |timers| == MAX_TIMERS && TimersNamed(t) && 10 <= TimerOf(t, s)
    requires Del(t, s, at).0.Some? && at2 <= t[Slot(t, s)].end && Chosen(Retire(timers, TimerOf(t, s)), -1).Some?
    ensures var t1, own := Del(t, s, at).1, TimerOf(t, s);
            var stopped := Retire(timers, own);
            var next := Chosen(stopped, -1).value;
            && Del(t1, s, at2).0 == Del(t, s, at).0 && TimerOf(t1, s) == own
            && (Retire(stopped[next := x.(active := true)], own)[next].active <==> next != own)
            && (next == own <==> forall j :: 10 <= j < own ==> timers[j].active)
  {
    hide FirstFree, Slot, Find;
    SameSlot(t, s, at);
    var k, own := Slot(t, s), TimerOf(t, s);
    assert Retire(timers, own)[own] == timers[own].(active := false);
    assert forall j :: 0 <= j < MAX_TIMERS && j != own ==> Retire(timers, own)[j] == timers[j];
  }

  /** An answer leaves its entry in its slot. */
  lemma SameSlot(t: Table, s: nat, at: int)
    requires Del(t, s, at).0.Some?
    ensures var k, t1 := Slot(t, s), Del(t, s, at).1;
            k < SLOTS && Slot(t1, s) == k && t1[k] == t[k].(active := false)
  {
    hide Find;
    var t1 := Del(t, s, at).1;
    assert forall j :: 0 <= j < SLOTS ==> t1[j].system == t[j].system;
  }

  /** A primary message is out: its T3 timer and its transaction get the index of the cursor. */
  method OpenTransaction(program: StoredProgram, table: OpenTransactions, clock: Clock, system: nat, t3: nat, now: int)
      returns (ok: bool)
    requires program.Valid() && table.Valid() && clock.timers.Length == MAX_TIMERS
    requires EntriesOnTokens(program.codes, program.tokens, table.Contents()) && TimersNamed(table.Contents())
    requires TimersOnTokens(program.codes, program.tokens, clock.timers[..])
    modifies table.table, clock.timers
    ensures program.Valid() && table.Valid()
    ensures ok ==> EntriesOnTokens(program.codes, program.tokens, table.Contents())
                   && TimersOnTokens(program.codes, program.tokens, clock.timers[..]) && TimersNamed(table.Contents())
    ensures ok ==> var timer := Chosen(old(clock.timers[..]), -1);
                   && timer.Some? && clock.timers[timer.value] == Timer(true, now + t3, program.idx)
                   && Some(table.Contents()) == Add(old(table.Contents()), program.idx, system, timer.value, t3, now)
  {
    hide Boundary, Offset, AllStorable, StoredAll, FirstFree, Find;
    BoundaryAt(program.codes, program.tokens, program.at);
    var timer;
    timer, ok := clock.Start(-1, t3, program.idx, now);
    if ok {
      ok := table.AddEntry(program.idx, system, timer, t3, now);
    }
  }

  /** resume_via_program_idx: the cursor goes to an index kept, and a token is read before the run goes
      on; `k` counts tokens. */
  method Resume(program: StoredProgram, env: Env, i: nat) returns (t: Token, ghost k: nat)
    requires program.Valid() && Boundary(program.codes, program.tokens, i)
    modifies program
    ensures program.Valid() && k <= |program.tokens| && i == Offset(program.codes, program.tokens, k)
    ensures t == TokenAt(program.resolve, program.tokens, env, k) && program.at == Past(program.tokens, k)
  {
    k :| k <= |program.tokens| && i == Offset(program.codes, program.tokens, k);
    program.SetIdx(i, k);
    t := program.GetToken(env);
  }

  /** A reply in time: the timer of its transaction is stopped, and the program goes on behind the token
      at the index of the transaction. */
  method ResumeByReply(program: StoredProgram, env: Env, table: OpenTransactions, clock: Clock, system: nat, now: int)
      returns (found: bool, t: Token, ghost k: nat)
    requires program.Valid() && table.Valid() && EntriesOnTokens(program.codes, program.tokens, table.Contents())
    requires clock.timers.Length == MAX_TIMERS && TimersNamed(table.Contents())
    modifies program, table.table, clock.timers
    ensures program.Valid() && table.Valid() && EntriesOnTokens(program.codes, program.tokens, table.Contents())
    ensures var (p, after) := Del(old(table.Contents()), system, now);
            && table.Contents() == after && (found <==> p.Some?)
            && if found then
                 && clock.timers[..] == Retire(old(clock.timers[..]), TimerOf(old(table.Contents()), system))
                 && k <= |program.tokens| && p.value == Offset(program.codes, program.tokens, k)
                 && t == TokenAt(program.resolve, program.tokens, env, k) && program.at == Past(program.tokens, k)
               else clock.timers[..] == old(clock.timers[..]) && program.idx == old(program.idx)
  {
    hide Boundary, Offset, AllStorable, StoredAll, Find, TokenAt;
    t, k := NULL_TOKEN, 0;
    var i, timer := table.DelEntry(system, now);
    found := i.Some?;
    if found {
      clock.Stop(timer);
      t, k := Resume(program, env, i.value);
    }
  }

  /** A timer is over: the program goes on behind the token at its index. */
  method ResumeByTimer(program: StoredProgram, env: Env, clock: Clock, now: int)
      returns (found: bool, t: Token, ghost k: nat)
    requires program.Valid() && TimersOnTokens(program.codes, program.tokens, clock.timers[..])
    modifies program, clock.timers
    ensures program.Valid() && TimersOnTokens(program.codes, program.tokens, clock.timers[..])
    ensures var p := Pick(old(clock.timers[..]), now, clock.timers.Length);
            && (found <==> p.Some?)
            && if found then
                 && k <= |program.tokens|
                 && old(clock.timers[..])[p.value].program == Offset(program.codes, program.tokens, k)
                 && t == TokenAt(program.resolve, program.tokens, env, k) && program.at == Past(program.tokens, k)
               else program.idx == old(program.idx)
  {
    hide Boundary, Offset, AllStorable, StoredAll, TokenAt;
    t, k := NULL_TOKEN, 0;
    ghost var before := clock.timers[..];
    var idx, i := clock.Handle(now);
    found := idx >= 0;
    if found {
      assert Boundary(program.codes, program.tokens, before[idx].program);
      t, k := Resume(program, env, i);
    }
  }
}
