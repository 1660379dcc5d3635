/** Timers (source/timers.c:200-468): the start of a timer, the handler that retires one expired timer
    a call, and the time of the next alarm. What a retired timer resumes is not run here. */
module Timers {
  import opened Tokens

  const MAX_TIMERS := 50

  datatype Timer = Timer(active: bool, end: int, program: nat)

  predicate Due(x: Timer, now: int) { x.active && x.end <= now }

  /** The timer most over due among the first `n`, the highest of several. */
  function Pick(t: seq<Timer>, now: int, n: nat): (r: Option<nat>)
    requires n <= |t|
    ensures r.Some? ==> r.value < n && Due(t[r.value], now)
  {
    if n == 0 then None
    else
      var r := Pick(t, now, n - 1);
      if Due(t[n - 1], now) && (r.None? || t[n - 1].end <= t[r.value].end) then Some(n - 1) else r
  }

  /** No timer is retired exactly when all that run have their deadline still to come. */
  lemma {:induction false} NoneToRetire(t: seq<Timer>, now: int, n: nat)
    requires n <= |t|
    ensures Pick(t, now, n).None? <==> forall i :: 0 <= i < n && t[i].active ==> now < t[i].end
    decreases n
  {
    if n > 0 { NoneToRetire(t, now, n - 1); }
  }

  function Retire(t: seq<Timer>, i: nat): seq<Timer>
    requires i < |t|
  {
    t[i := t[i].(active := false)]
  }

  /** The smaller of five minutes and the time to any active deadline. */
  function Nearest(t: seq<Timer>, now: int, n: nat): int
    requires n <= |t|
  {
    if n == 0 then 300
    else
      var m := Nearest(t, now, n - 1);
      if t[n - 1].active && t[n - 1].end - now < m then t[n - 1].end - now else m
  }

  /** It is one of these times, and no larger than any of them. */
  lemma {:induction false} NearestIs(t: seq<Timer>, now: int, n: nat)
    requires n <= |t|
    ensures Nearest(t, now, n) <= 300 && forall k :: 0 <= k < n && t[k].active ==> Nearest(t, now, n) <= t[k].end - now
    ensures Nearest(t, now, n) == 300 || exists k :: 0 <= k < n && t[k].active && Nearest(t, now, n) == t[k].end - now
    decreases n
  {
    if n > 0 { NearestIs(t, now, n - 1); }
  }

  predicate AnyActive(t: seq<Timer>) { exists i :: 0 <= i < |t| && t[i].active }

  /** The first free timer from `i` on, or their number. */
  function FirstFree(t: seq<Timer>, i: nat): (k: nat)
    requires i <= |t|
    ensures i <= k <= |t| && (k < |t| ==> !t[k].active) && forall j :: i <= j < k ==> t[j].active
    decreases |t| - i
  {
    if i == |t| || !t[i].active then i else FirstFree(t, i + 1)
  }

  /** The timer a start takes: a number other than 0 only means the next one free from 10 on
      (source/timers.c:228-246). None where the source ends the process. */
  function Chosen(t: seq<Timer>, timer: int): (r: Option<nat>)
    requires |t| == MAX_TIMERS
    ensures r.Some? ==> r.value < |t|
  {
    if timer < -1 || timer >= 10 then None
    else if timer == 0 then Some(0)
    else if FirstFree(t, 10) == |t| then None
    else Some(FirstFree(t, 10))
  }

  /** Of the numbers a program may ask for only 0 gets its timer; any other gets what no number gets. */
  lemma OnlyZeroTaken(t: seq<Timer>, timer: nat)
    requires |t| == MAX_TIMERS && timer < 10
    ensures Chosen(t, timer) == Some(timer) <==> timer == 0
    ensures timer != 0 ==> Chosen(t, timer) == Chosen(t, -1)
  {
  }

  /** A start without a number ends the process exactly when all timers from 10 to 49 run. */
  lemma NoTimerLeft(t: seq<Timer>)
    requires |t| == MAX_TIMERS
    ensures Chosen(t, -1).None? <==> forall j :: 10 <= j < 50 ==> t[j].active
    ensures Chosen(t, -1).Some? ==>
              var i := Chosen(t, -1).value; 10 <= i < 50 && !t[i].active && forall j :: 10 <= j < i ==> t[j].active
  {
    hide FirstFree;
  }

  class Clock {
    const timers: array<Timer>

    constructor ()
      ensures fresh(timers) && timers.Length == MAX_TIMERS && !AnyActive(timers[..])
    {
      timers := new Timer[MAX_TIMERS](_ => Timer(false, 0, 0));
    }

    /** start_timer; `ok` is false where the source ends the process. */
    method Start(timer: int, seconds: nat, program: nat, now: int) returns (idx: nat, ok: bool)
      requires timers.Length == MAX_TIMERS
      modifies timers
      ensures match Chosen(old(timers[..]), timer)
              case None => !ok && timers[..] == old(timers[..])
              case Some(i) => ok && idx == i && timers[..] == old(timers[..])[i := Timer(true, now + seconds, program)]
    {
      idx, ok := 0, true;
      if timer < -1 || timer >= 10 {
        return 0, false;
      }
      if timer != 0 {
        idx := 10;
        while idx < timers.Length && timers[idx].active
          invariant 10 <= idx <= timers.Length && FirstFree(timers[..], 10) == FirstFree(timers[..], idx)
        {
          idx := idx + 1;
        }
        if idx == timers.Length {
          return idx, false;
        }
      }
      timers[idx] := Timer(true, now + seconds, program);
    }

    /** stop_timer */
    method Stop(idx: nat)
      requires idx < timers.Length
      modifies timers
      ensures timers[..] == Retire(old(timers[..]), idx)
    {
      timers[idx] := timers[idx].(active := false);
    }

    /** timer_handler, up to the resumption of the program at the index of the timer. */
    method Handle(now: int) returns (idx: int, program: nat)
      modifies timers
      ensures match Pick(old(timers[..]), now, timers.Length)
              case None => idx == -1 && timers[..] == old(timers[..])
              case Some(i) => idx == i && program == old(timers[i].program) && timers[..] == Retire(old(timers[..]), i)
    {
      var max := 0;
      idx, program := -1, 0;
      for i := 0 to timers.Length
        invariant timers[..] == old(timers[..])
        invariant match Pick(timers[..], now, i)
                  case None => idx == -1 && max == 0
                  case Some(k) => idx == k && max == now - timers[k].end
      {
        if timers[i].active {
          if now >= timers[i].end {
            if max <= now - timers[i].end {
              max := now - timers[i].end;
              idx := i;
            }
          }
        }
      }
      if idx >= 0 {
        program := timers[idx].program;
        timers[idx] := timers[idx].(active := false);
      }
    }

    /** calc_min_time */
    method NextAlarm(now: int) returns (seconds: int)
      ensures seconds == 0 <==> !AnyActive(timers[..])
      ensures AnyActive(timers[..]) ==>
                var d := Nearest(timers[..], now, timers.Length); seconds == if d <= 0 then 1 else d
      ensures AnyActive(timers[..]) ==> 1 <= seconds <= 300
      ensures forall i :: 0 <= i < timers.Length && timers[i].active && timers[i].end > now ==>
                seconds <= timers[i].end - now
      ensures forall i :: 0 <= i < timers.Length && Due(timers[i], now) ==> seconds == 1
    {
      var num := 0;
      seconds := 300;
      for i := 0 to timers.Length
        invariant num > 0 <==> exists k :: 0 <= k < i && timers[k].active
        invariant seconds <= 300 && forall k :: 0 <= k < i && timers[k].active ==> seconds <= timers[k].end - now
        invariant seconds == Nearest(timers[..], now, i)
        invariant num >= 0
      {
        if timers[i].active {
          num := num + 1;
          seconds := if seconds < timers[i].end - now then seconds else timers[i].end - now;
        }
      }
      if num > 0 {
        if seconds <= 0 {
          seconds := 1;
        }
      } else {
        seconds := 0;
      }
    }
  }

  // ---------------------------------------------------------------- successive calls

  /** Retired before: the earlier deadline, and of the same deadline the higher index. */
  predicate Ahead(t: seq<Timer>, i: nat, j: nat)
    requires i < |t| && j < |t|
  {
    t[i].end < t[j].end || (t[i].end == t[j].end && i >= j)
  }

  lemma {:induction false} PickIsFirst(t: seq<Timer>, now: int, n: nat)
    requires n <= |t|
    ensures match Pick(t, now, n)
            case None => forall j :: 0 <= j < n ==> !Due(t[j], now)
            case Some(i) => forall j :: 0 <= j < n && t[j].active ==> Ahead(t, i, j)
  {
    if n > 0 { PickIsFirst(t, now, n - 1); }
  }

  /** The timers retired by calls at the given times, and the table behind them. */
  function Retired(t: seq<Timer>, times: seq<int>): (seq<nat>, seq<Timer>)
    decreases |times|
  {
    if times == [] then ([], t)
    else
      match Pick(t, times[0], |t|)
      case None => Retired(t, times[1..])
      case Some(i) =>
        var (rest, t1) := Retired(Retire(t, i), times[1..]);
        ([i] + rest, t1)
  }

  predicate InOrder(t: seq<Timer>, r: seq<nat>) {
    && (forall k :: 0 <= k < |r| ==> r[k] < |t| && t[r[k]].active)
    && (forall j, k :: 0 <= j < k < |r| ==> r[j] != r[k] && Ahead(t, r[j], r[k]))
  }

  lemma InOrderBehind(t: seq<Timer>, i: nat, rest: seq<nat>)
    requires i < |t| && t[i].active && InOrder(Retire(t, i), rest)
    requires forall j :: 0 <= j < |t| && t[j].active ==> Ahead(t, i, j)
    ensures InOrder(t, [i] + rest)
  {
    var t1, r := Retire(t, i), [i] + rest;
    forall k | 0 <= k < |r| ensures r[k] < |t| && t[r[k]].active && (k > 0 ==> r[k] != i) {
      if k > 0 { assert r[k] == rest[k - 1] && t1[rest[k - 1]].active; }
    }
    forall j, k | 0 <= j < k < |r| ensures r[j] != r[k] && Ahead(t, r[j], r[k]) {
      if j > 0 {
        assert r[j] == rest[j - 1] && r[k] == rest[k - 1];
        assert Ahead(t1, rest[j - 1], rest[k - 1]);
      }
    }
  }

  /** Whatever the times of the calls, timers are retired in the order of their deadlines, each once,
      and only timers that were active. */
  lemma {:induction false} RetiredInOrder(t: seq<Timer>, times: seq<int>)
    ensures InOrder(t, Retired(t, times).0)
    decreases |times|
  {
    hide Pick, InOrder;
    if times == [] {
      assert InOrder(t, []) by { NoneInOrder(t); }
    } else {
      PickIsFirst(t, times[0], |t|);
      var p := Pick(t, times[0], |t|);
      if p.None? {
        RetiredInOrder(t, times[1..]);
      } else {
        RetiredInOrder(Retire(t, p.value), times[1..]);
        InOrderBehind(t, p.value, Retired(Retire(t, p.value), times[1..]).0);
      }
    }
  }

  lemma NoneInOrder(t: seq<Timer>)
    ensures InOrder(t, [])
  {
  }

  function DueCount(t: seq<Timer>, now: int): nat
    decreases |t|
  {
    if t == [] then 0 else DueCount(t[..|t| - 1], now) + if Due(t[|t| - 1], now) then 1 else 0
  }

  lemma {:induction false} RetireCount(t: seq<Timer>, now: int, i: nat)
    requires i < |t| && Due(t[i], now)
    ensures DueCount(Retire(t, i), now) == DueCount(t, now) - 1
    decreases |t|
  {
    var s := t[..|t| - 1];
    if i < |t| - 1 {
      assert Retire(t, i)[..|t| - 1] == Retire(s, i);
      RetireCount(s, now, i);
    } else {
      assert Retire(t, i)[..|t| - 1] == s;
    }
  }

  lemma {:induction false} NoneDue(t: seq<Timer>, now: int)
    ensures DueCount(t, now) == 0 <==> forall j :: 0 <= j < |t| ==> !Due(t[j], now)
    decreases |t|
  {
    if t != [] {
      var s := t[..|t| - 1];
      NoneDue(s, now);
      assert forall j :: 0 <= j < |s| ==> s[j] == t[j];
    }
  }

  /** As many calls as timers are due, at one time, retire one of them each, and all of them. */
  lemma {:induction false} AllRetired(t: seq<Timer>, now: int, n: nat)
    requires n == DueCount(t, now)
    ensures var (r, t1) := Retired(t, seq(n, _ => now));
            && |r| == n && |t1| == |t|
            && (forall k :: 0 <= k < n ==> r[k] < |t| && Due(t[r[k]], now))
            && forall j :: 0 <= j < |t| ==> !Due(t1[j], now)
    decreases n
  {
    hide Pick, Due;
    NoneDue(t, now);
    var times := seq(n, _ => now);
    if n > 0 {
      PickIsFirst(t, now, |t|);
      var i := Pick(t, now, |t|).value;
      PickDue(t, now);
      var t1 := Retire(t, i);
      RetireCount(t, now, i);
      assert times[1..] == seq(n - 1, _ => now);
      AllRetired(t1, now, n - 1);
      var r := Retired(t, times).0;
      var rest := Retired(t1, times[1..]).0;
      assert r == [i] + rest;
      forall k | 0 <= k < n ensures r[k] < |t| && Due(t[r[k]], now) {
        if k > 0 {
          assert r[k] == rest[k - 1];
          StillDue(t, now, i, rest[k - 1]);
        }
      }
    }
  }

  lemma PickDue(t: seq<Timer>, now: int)
    ensures var r := Pick(t, now, |t|); r.Some? ==> Due(t[r.value], now)
  {
  }

  lemma StillDue(t: seq<Timer>, now: int, i: nat, j: nat)
    requires i < |t| && j < |t| && Due(Retire(t, i)[j], now)
    ensures Due(t[j], now)
  {
  }
}
