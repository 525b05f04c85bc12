/**
 * The countdown as a whole. The one-second timer emits tick indices
 * 0, 1, 2, ... to the handler until the subscription is disposed; Deliver
 * gives the effects of such a run, and the lemmas below state what a full
 * or partial run shows and that it opens a screen at most once.
 */
module Countdown {
  import opened Guide

  /** The tick indices start, start + 1, ..., start + n - 1, in the order the timer emits them. */
  function TickIndices(start: int, n: nat): (r: seq<int>)
    ensures |r| == n
    ensures forall i :: 0 <= i < n ==> r[i] == start + i
    decreases n
  {
    if n == 0 then [] else [start] + TickIndices(start + 1, n - 1)
  }

  /** The countdown text from k seconds down to 1. */
  function Shows(k: int): (r: seq<Effect>)
    ensures |r| == if k > 0 then k else 0
    ensures forall i :: 0 <= i < |r| ==> r[i] == ShowSeconds(k - i)
  {
    if k <= 0 then [] else [ShowSeconds(k)] + Shows(k - 1)
  }

  /** Whether some tick of the run ends in jump(). */
  predicate JumpsSomewhere(preTime: int, ticks: seq<int>)
    decreases |ticks|
  {
    ticks != [] && (JumpsAt(preTime, ticks[0]) || JumpsSomewhere(preTime, ticks[1..]))
  }

  /**
   * The effects of delivering `ticks` in order to a live subscription: the
   * tick that jumps disposes the subscription, so no later tick arrives.
   * A run ends by finishing the screen exactly when one of its ticks jumps.
   */
  function Deliver(preTime: int, ticks: seq<int>, to: Screen): (r: seq<Effect>)
    ensures JumpsSomewhere(preTime, ticks) <==> r != [] && r[|r| - 1] == Finish
    decreases |ticks|
  {
    if ticks == [] then []
    else if JumpsAt(preTime, ticks[0]) then TickEffects(preTime, ticks[0], to)
    else TickEffects(preTime, ticks[0], to) + Deliver(preTime, ticks[1..], to)
  }

  /** A tick that does not jump shows its time left, and the run goes on with the next tick. */
  lemma DeliverShowsFirst(preTime: int, ticks: seq<int>, to: Screen)
    requires ticks != [] && !JumpsAt(preTime, ticks[0])
    ensures Deliver(preTime, ticks, to) == [ShowSeconds(preTime - ticks[0])] + Deliver(preTime, ticks[1..], to)
  {
  }

  /** A run in which no tick jumps shows each tick's time left, in order, and nothing else. */
  lemma {:induction false} DeliverShowsEach(preTime: int, ticks: seq<int>, to: Screen)
    requires !JumpsSomewhere(preTime, ticks)
    ensures |Deliver(preTime, ticks, to)| == |ticks|
    ensures forall i :: 0 <= i < |ticks| ==> Deliver(preTime, ticks, to)[i] == ShowSeconds(preTime - ticks[i])
    decreases |ticks|
  {
    if ticks != [] {
      var rest := ticks[1..];
      DeliverShowsFirst(preTime, ticks, to);
      DeliverShowsEach(preTime, rest, to);
      var r := Deliver(preTime, ticks, to);
      forall i | 0 < i < |ticks|
        ensures r[i] == ShowSeconds(preTime - ticks[i])
      {
        assert r[i] == Deliver(preTime, rest, to)[i - 1] && rest[i - 1] == ticks[i];
      }
    }
  }

  /** The first of the tick indices from start is start, and the others start at start + 1. */
  lemma TickIndicesFirst(start: int, n: nat)
    requires n > 0
    ensures TickIndices(start, n)[0] == start && TickIndices(start, n)[1..] == TickIndices(start + 1, n - 1)
  {
  }

  /** The first n values of the countdown from k begin with k, followed by the countdown from k - 1. */
  lemma ShowsPrefix(k: int, n: nat)
    requires 0 < n <= k
    ensures Shows(k)[..n] == [ShowSeconds(k)] + Shows(k - 1)[..n - 1]
  {
    assert Shows(k) == [ShowSeconds(k)] + Shows(k - 1);
  }

  /** A run opens a screen exactly when one of its ticks jumps, and never more than once. */
  lemma {:induction false} NavigatesAtMostOnce(preTime: int, ticks: seq<int>, to: Screen)
    ensures Navigations(Deliver(preTime, ticks, to)) == if JumpsSomewhere(preTime, ticks) then 1 else 0
    decreases |ticks|
  {
    if ticks != [] {
      if !JumpsAt(preTime, ticks[0]) {
        DeliverShowsFirst(preTime, ticks, to);
        NavigationsAppend([ShowSeconds(preTime - ticks[0])], Deliver(preTime, ticks[1..], to));
        NavigatesAtMostOnce(preTime, ticks[1..], to);
      }
    }
  }

  /** The tick that jumps ends the run. */
  lemma DeliverStopsAtJump(preTime: int, ticks: seq<int>, to: Screen)
    requires ticks != [] && JumpsAt(preTime, ticks[0])
    ensures Deliver(preTime, ticks, to) == TickEffects(preTime, ticks[0], to)
  {
  }

  /** A first tick index with more than one second left shows its time, and the run goes on from the next index. */
  lemma DeliverFromStart(preTime: int, start: int, n: nat, to: Screen)
    requires n > 0 && start + 1 < preTime
    ensures Deliver(preTime, TickIndices(start, n), to) ==
      [ShowSeconds(preTime - start)] + Deliver(preTime, TickIndices(start + 1, n - 1), to)
  {
    TickIndicesFirst(start, n);
    DeliverShowsFirst(preTime, TickIndices(start, n), to);
  }

  /** A first tick index with one second left shows 1s and jumps. */
  lemma DeliverLastSecond(preTime: int, start: int, n: nat, to: Screen)
    requires n > 0 && preTime - start == 1
    ensures Deliver(preTime, TickIndices(start, n), to) == Shows(1) + JumpEffects(to)
  {
    TickIndicesFirst(start, n);
    DeliverStopsAtJump(preTime, TickIndices(start, n), to);
    ShowsFirst(1);
  }

  /** With start < preTime <= start + n, the run shows preTime - start down to 1 and then jumps. */
  lemma {:induction false} FullCountdown(preTime: int, start: int, n: nat, to: Screen)
    requires start < preTime <= start + n
    ensures Deliver(preTime, TickIndices(start, n), to) == Shows(preTime - start) + JumpEffects(to)
    decreases n
  {
    if preTime - start == 1 {
      DeliverLastSecond(preTime, start, n, to);
    } else {
      FullCountdown(preTime, start + 1, n - 1, to);
      DeliverFromStart(preTime, start, n, to);
      ShowsThen(preTime - start, JumpEffects(to));
    }
  }

  /** The countdown from k > 0 shows k, then counts down from k - 1. */
  lemma ShowsFirst(k: int)
    requires k > 0
    ensures Shows(k) == [ShowSeconds(k)] + Shows(k - 1)
  {
  }

  /** No tick index before the last second jumps. */
  lemma {:induction false} NoJumpBeforeLastSecond(preTime: int, start: int, n: nat)
    requires start + n < preTime
    ensures !JumpsSomewhere(preTime, TickIndices(start, n))
    decreases n
  {
    if n > 0 {
      TickIndicesFirst(start, n);
      NoJumpBeforeLastSecond(preTime, start + 1, n - 1);
    }
  }

  /** A run cut short before the last second shows the first n values of the countdown and opens nothing. */
  lemma PartialCountdown(preTime: int, start: int, n: nat, to: Screen)
    requires start + n < preTime
    ensures Deliver(preTime, TickIndices(start, n), to) == Shows(preTime - start)[..n]
  {
    NoJumpBeforeLastSecond(preTime, start, n);
    DeliverShowsEach(preTime, TickIndices(start, n), to);
    var r := Deliver(preTime, TickIndices(start, n), to);
    var s := Shows(preTime - start)[..n];
    assert |r| == n == |s|;
    forall i | 0 <= i < n
      ensures r[i] == s[i]
    {
    }
  }

  /**
   * The screen's five-second countdown: ticks 0 to 3 show 5s, 4s, 3s and 2s,
   * tick 4 shows 1s and jumps, and fewer than five ticks open nothing.
   */
  lemma GuideCountdown(n: nat, to: Screen)
    ensures n >= 5 ==> (Deliver(5, TickIndices(0, n), to) ==
      [ShowSeconds(5), ShowSeconds(4), ShowSeconds(3), ShowSeconds(2), ShowSeconds(1),
       DisposeCountdown, Navigate(to), Finish])
    ensures n < 5 ==> Deliver(5, TickIndices(0, n), to) == Shows(5)[..n]
    ensures Navigations(Deliver(5, TickIndices(0, n), to)) == if n >= 5 then 1 else 0
  {
    var ticks := TickIndices(0, n);
    NavigatesAtMostOnce(5, ticks, to);
    if n >= 5 {
      FullCountdown(5, 0, n, to);
      assert JumpsAt(5, ticks[4]);
    } else {
      PartialCountdown(5, 0, n, to);
    }
  }

  /** Adding a tick to a run in which nothing has jumped yet adds that tick's effects. */
  lemma {:induction false} DeliverSnoc(preTime: int, ticks: seq<int>, x: int, to: Screen)
    requires !JumpsSomewhere(preTime, ticks)
    ensures Deliver(preTime, ticks + [x], to) == Deliver(preTime, ticks, to) + TickEffects(preTime, x, to)
  {
    if ticks == [] {
      assert ticks + [x] == [x];
    } else {
      var shown := ShowSeconds(preTime - ticks[0]);
      var rest := ticks[1..];
      assert !JumpsAt(preTime, ticks[0]);
      assert (ticks + [x])[0] == ticks[0] && (ticks + [x])[1..] == rest + [x];
      calc {
        Deliver(preTime, ticks + [x], to);
      == { DeliverShowsFirst(preTime, ticks + [x], to); }
        [shown] + Deliver(preTime, rest + [x], to);
      == { DeliverSnoc(preTime, rest, x, to); }
        [shown] + (Deliver(preTime, rest, to) + TickEffects(preTime, x, to));
      == { AppendAssociates([shown], Deliver(preTime, rest, to), TickEffects(preTime, x, to)); }
        [shown] + Deliver(preTime, rest, to) + TickEffects(preTime, x, to);
      == { DeliverShowsFirst(preTime, ticks, to); }
        Deliver(preTime, ticks, to) + TickEffects(preTime, x, to);
      }
    }
  }

  /** While the countdown has time left, one more tick index adds exactly that tick's effects. */
  lemma DeliverNextTick(preTime: int, k: nat, to: Screen, log: seq<Effect>)
    requires k < preTime
    ensures log + Deliver(preTime, TickIndices(0, k + 1), to) == log + Deliver(preTime, TickIndices(0, k), to) + TickEffects(preTime, k, to)
    ensures JumpsAt(preTime, k) <==> k + 1 >= preTime
  {
    var ticks := TickIndices(0, k);
    assert TickIndices(0, k + 1) == ticks + [k];
    NoJumpBeforeLastSecond(preTime, 0, k);
    DeliverSnoc(preTime, ticks, k, to);
    AppendAssociates(log, Deliver(preTime, ticks, to), TickEffects(preTime, k, to));
  }

  /** Showing k before the countdown from k - 1 and some further effects is the countdown from k followed by them. */
  lemma ShowsThen(k: int, tail: seq<Effect>)
    requires k > 0
    ensures [ShowSeconds(k)] + (Shows(k - 1) + tail) == Shows(k) + tail
  {
    ShowsFirst(k);
    AppendAssociates([ShowSeconds(k)], Shows(k - 1), tail);
  }

  lemma AppendAssociates(a: seq<Effect>, b: seq<Effect>, c: seq<Effect>)
    ensures a + (b + c) == a + b + c
  {
  }

  /** Once the countdown has jumped, later tick indices add nothing: a disposed subscription receives none. */
  lemma StoppedRunIgnoresLaterTicks(preTime: int, k: nat, n: nat, to: Screen)
    requires 0 < preTime <= k <= n
    ensures Deliver(preTime, TickIndices(0, n), to) == Deliver(preTime, TickIndices(0, k), to)
  {
    FullCountdown(preTime, 0, k, to);
    FullCountdown(preTime, 0, n, to);
  }

  /**
   * The timer driving a screen: tick indices 0, 1, ..., n - 1 are handed to
   * the tick handler for as long as the subscription stays live.
   */
  method RunCountdown(g: GuideActivity, n: nat)
    requires g.Valid() && g.subscription.Active?
    modifies g
    ensures g.Valid()
    ensures g.effects == old(g.effects) + Deliver(g.preTime, TickIndices(0, n), Route(g.selected, g.app.isLogin))
    ensures g.subscription == if n < g.preTime then Active else Disposed
    ensures g.info == old(g.info)
    ensures g.selected == old(g.selected)
  {
    ghost var to := Route(g.selected, g.app.isLogin);
    ghost var before := g.effects;
    var k := 0;
    while k < n && g.subscription.Active?
      invariant 0 <= k <= n
      invariant g.Valid()
      invariant g.selected == old(g.selected) && to == Route(g.selected, g.app.isLogin)
      invariant g.subscription == if k < g.preTime then Active else Disposed
      invariant g.info == old(g.info)
      invariant g.effects == before + Deliver(g.preTime, TickIndices(0, k), to)
    {
      DeliverNextTick(g.preTime, k, to, before);
      g.OnTick(k);
      k := k + 1;
    }
    if k < n {
      StoppedRunIgnoresLaterTicks(g.preTime, k, n, to);
    }
  }
}
