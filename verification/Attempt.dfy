/** Repeated attempts at an action, spaced by a delay and bounded by a total time and a
    minimum number. Times and durations are integers of one unit. */
module Attempts {

  /** A clock that never runs backwards: between any two readings an arbitrary time may pass,
      and a sleep may take longer than asked. */
  class Clock {
    var time: int
    var readings: nat
    const drift: nat -> nat

    constructor (time: int, drift: nat -> nat)
      ensures this.time == time && this.drift == drift
    {
      this.time, this.drift, readings := time, drift, 0;
    }

    method Now() returns (now: int)
      modifies this
      ensures now == time == old(time) + drift(old(readings)) >= old(time) && readings == old(readings) + 1
    {
      time := time + drift(readings);
      readings := readings + 1;
      return time;
    }

    method Sleep(d: int)
      requires d >= 0
      modifies this
      ensures time == old(time) + d + drift(old(readings)) >= old(time) + d && readings == old(readings) + 1
    {
      time := time + d + drift(readings);
      readings := readings + 1;
    }
  }

  /** No time passes but by sleeping, and no sleep takes longer. */
  ghost predicate Exact(clock: Clock) { forall n :: clock.drift(n) == 0 }

  datatype AttemptStrategy = AttemptStrategy(total: int, delay: int, min: int)

  function Max(a: int, b: int): int { if a >= b then a else b }

  /** How many delays it takes to use up a total. */
  ghost function Rounds(total: int, delay: int): nat
    requires delay > 0
    decreases Max(0, total)
  {
    if total <= 0 then 0 else 1 + Rounds(total - delay, delay)
  }

  /** The time of c delays. */
  ghost function Delays(c: nat, delay: int): int {
    if c == 0 then 0 else Delays(c - 1, delay) + delay
  }

  lemma {:induction false} RoundsIs(total: int, delay: int, c: nat)
    requires delay > 0
    ensures Delays(c, delay) < total <==> c < Rounds(total, delay)
    decreases c
  {
    if c > 0 {
      RoundsIs(total - delay, delay, c - 1);
      DelaysAreNotNegative(c - 1, delay);
    }
  }

  lemma {:induction false} DelaysAreNotNegative(c: nat, delay: int)
    requires delay > 0
    ensures Delays(c, delay) >= 0
  {
    if c > 0 { DelaysAreNotNegative(c - 1, delay); }
  }

  /** It is the quotient rounded up. */
  lemma {:induction false} RoundsIsCeiling(total: int, delay: int)
    requires delay > 0 && total > 0
    ensures (Rounds(total, delay) - 1) * delay < total <= Rounds(total, delay) * delay
    decreases total
  {
    if total > delay {
      RoundsIsCeiling(total - delay, delay);
    } else {
      assert Rounds(total - delay, delay) == 0;
    }
    var r := Rounds(total - delay, delay);
    assert (r + 1) * delay == r * delay + delay && (r - 1) * delay + delay == r * delay;
  }

  /** The most attempts a strategy allows. */
  ghost function Most(s: AttemptStrategy): int
    requires s.delay > 0
  {
    Max(1, Max(s.min, Rounds(s.total, s.delay)))
  }

  class Attempt {
    const strategy: AttemptStrategy
    var last: int
    var end: int
    var force: bool
    var count: nat
    const clock: Clock
    ghost const start: int
    ghost var times: seq<int>

    /** The attempts so far are a delay apart, at least. */
    ghost predicate Paced()
      reads this, clock
    {
      && strategy.delay > 0
      && end == start + strategy.total && start <= last <= clock.time
      && count == |times|
      && (count > 0 ==> times[count - 1] == last && last >= start + Delays(count - 1, strategy.delay))
      && (forall i :: 0 < i < |times| ==> times[i] >= times[i - 1] + strategy.delay)
    }

    /** Besides, they fit the bound, and another one is promised only if it fits too. */
    ghost predicate Valid()
      reads this, clock
    {
      Paced() && count <= Most(strategy) && (count == 0 ==> force) && (force ==> count < Most(strategy))
    }

    /** Starts a sequence of attempts. */
    constructor Start(s: AttemptStrategy, clock: Clock)
      requires s.delay > 0
      modifies clock
      ensures Valid() && strategy == s && this.clock == clock && count == 0 && times == []
      ensures old(clock.time) <= start == last == clock.time
    {
      strategy, this.clock := s, clock;
      var now := clock.Now();
      last, end, force, count := now, now + s.total, true, 0;
      start, times := now, [];
    }

    function NextSleep(now: int): (r: int)
      reads this
      ensures r >= 0 && now + r == Max(now, last + strategy.delay)
    {
      var sleep := strategy.delay - (now - last);
      if sleep < 0 then 0 else sleep
    }

    /** The next attempt is settled, whatever the clock does. */
    ghost predicate Promised()
      reads this
    {
      force || strategy.min > count
    }

    /** No attempt follows, whatever the clock does. */
    ghost predicate Over()
      reads this, clock
    {
      !Promised() && Max(clock.time, last + strategy.delay) >= end
    }

    lemma AnotherFits(now: int)
      requires Valid() && now >= last && count > 0 && (strategy.min > count || now + NextSleep(now) < end)
      ensures count < Most(strategy)
    {
      if strategy.min <= count {
        RoundsIs(strategy.total, strategy.delay, count);
      }
    }

    method Record(now: int)
      requires Paced() && now == clock.time && (count > 0 ==> now >= last + strategy.delay)
      modifies this`last, this`count, this`times
      ensures Paced() && times == old(times) + [now] && last == now && count == old(count) + 1
    {
      count := count + 1;
      last := now;
      times := times + [now];
    }

    /** Sleeps before any attempt but the first. */
    method Wait(now: int, sleep: int) returns (at: int)
      requires now == clock.time && sleep >= 0
      modifies clock
      ensures at == clock.time >= now && (count > 0 ==> at >= now + sleep)
      ensures Exact(clock) ==> at == now + (if count > 0 then sleep else 0)
    {
      at := now;
      if sleep > 0 && count > 0 {
        clock.Sleep(sleep);
        at := clock.Now();
      }
    }

    /** Waits for the next attempt, or says that there is none. */
    method Next() returns (ok: bool)
      requires Valid()
      modifies this`last, this`force, this`count, this`times, clock
      ensures Valid()
      ensures clock.time >= old(clock.time)
      ensures ok ==> times == old(times) + [clock.time] && last == clock.time && count == old(count) + 1 && !force
      ensures !ok ==> Over() && times == old(times) && count == old(count) >= Max(1, strategy.min)
      ensures old(Promised()) ==> ok
      ensures old(Over()) ==> !ok
      ensures Exact(clock) && old(clock.time == last) ==>
                && clock.time == last
                && (ok && old(count) > 0 ==> last == old(last) + strategy.delay)
                && (ok && old(count) == 0 ==> last == old(last))
                && (ok <==> old(force) || strategy.min > old(count) || old(last) + strategy.delay < end)
    {
      var now := clock.Now();
      var sleep := NextSleep(now);
      if !force && !(now + sleep < end) && strategy.min <= count {
        return false;
      }
      if count > 0 && !force { AnotherFits(now); }
      force := false;
      now := Wait(now, sleep);
      Record(now);
      return true;
    }

    /** Whether another attempt will be made. */
    method HasNext() returns (ok: bool)
      requires Valid()
      modifies this`force, clock
      ensures Valid() && (old(force) ==> force)
      ensures ok ==> Promised()
      ensures !ok ==> Over()
      ensures old(Promised()) ==> ok && force == old(force)
    {
      if force || strategy.min > count { return true; }
      var now := clock.Now();
      if now + NextSleep(now) < end {
        AnotherFits(now);
        force := true;
        return true;
      }
      return false;
    }

    /** What HasNext says is what the following Next does, both ways. */
    method Ask() returns (said: bool, done: bool)
      requires Valid()
      modifies this`last, this`force, this`count, this`times, clock
      ensures Valid() && said == done
    {
      said := HasNext();
      done := Next();
    }
  }

  /** A caller using only Next until it says no: how many attempts it gets, and when. On a clock
      that keeps exact time it gets the most there can be. */
  method TryAll(s: AttemptStrategy, clock: Clock) returns (a: Attempt, n: nat)
    requires s.delay > 0
    modifies clock
    ensures fresh(a) && a.Valid() && a.strategy == s && a.clock == clock && a.Over() && n == a.count == |a.times|
    ensures Max(1, s.min) <= n <= Most(s)
    ensures forall i :: 0 < i < n ==> a.times[i] >= a.times[i - 1] + s.delay
    ensures old(clock.time) <= a.times[0] && a.times[n - 1] <= clock.time
    ensures Exact(clock) ==> n == Most(s)
  {
    a := new Attempt.Start(s, clock);
    ghost var exact := Exact(clock);
    n := 0;
    while true
      invariant a.Valid() && fresh(a) && a.strategy == s && a.clock == clock && n == a.count
      invariant a.force <==> n == 0
      invariant old(clock.time) <= a.start && (n > 0 ==> a.start <= a.times[0])
      invariant exact ==> clock.time == a.last == a.start + (if n == 0 then 0 else Delays(n - 1, s.delay))
      decreases Most(s) - n
    {
      var ok := a.Next();
      if !ok { break; }
      n := n + 1;
    }
    if exact {
      RoundsIs(s.total, s.delay, n);
    }
  }
}
