/** The watch over a body's pace: which bodies it cuts off as too slow, and which it never does. */
module Pace {
  import opened Options

  /** The rate, in bytes a second, and the seconds over which the quota is their product. */
  datatype Limit = Limit(slowest: nat, seconds: real)

  function Quota(limit: Limit): real {
    limit.slowest as real * limit.seconds
  }

  /** The quota is a rate: its bytes in one second, and over more seconds the sum of what each part of them takes. */
  lemma QuotaIsRate(slowest: nat, a: real, b: real)
    ensures Quota(Limit(slowest, 1.0)) == slowest as real
    ensures Quota(Limit(slowest, a + b)) == Quota(Limit(slowest, a)) + Quota(Limit(slowest, b))
  {
    assert slowest as real * (a + b) == slowest as real * a + slowest as real * b;
  }

  /** The time and byte count of the last look that found the quota moved, none before the first look. */
  datatype Mark = Mark(at: Option<real>, moved: int)

  /** One look at a body that is moving. */
  function Look(limit: Limit, mark: Mark, now: real, moved: int): (Mark, bool) {
    if mark.at == None || (moved - mark.moved) as real >= Quota(limit) then (Mark(Some(now), moved), false)
    else (mark, now - mark.at.value >= limit.seconds)
  }

  /** An attempt's pace, as its two threads update it. */
  class Pacer {
    var pacing: bool
    var moved: nat
    var mark: Mark

    constructor ()
      ensures !pacing && moved == 0 && mark == Mark(None, 0)
    {
      pacing, moved, mark := false, 0, Mark(None, 0);
    }

    /** The thread making the request counts a block. */
    method Moved(count: nat)
      modifies this`moved
      ensures moved == old(moved) + count
    {
      moved := moved + count;
    }

    /** The watching thread looks; `slow` says it cuts the attempt off. */
    method Watch(now: real, limit: Limit) returns (slow: bool)
      modifies this`mark
      ensures !pacing ==> !slow && mark == old(mark).(at := None)
      ensures pacing ==> (mark, slow) == Look(limit, old(mark), now, moved)
    {
      slow := false;
      if !pacing {
        mark := mark.(at := None);
        return;
      }
      if mark.at == None || (moved - mark.moved) as real >= Quota(limit) {
        mark := Mark(Some(now), moved);
        return;
      }
      slow := now - mark.at.value >= limit.seconds;
    }
  }

  // ----- A body watched over time -----

  /** A body: the bytes moved by each time, never fewer later. */
  ghost predicate Body(body: real -> int) {
    forall t, u :: t <= u ==> body(t) <= body(u)
  }

  ghost predicate Ordered(times: seq<real>) {
    forall i, j :: 0 <= i <= j < |times| ==> times[i] <= times[j]
  }

  /** The mark after looking at all `times`, none of which cut the body off. */
  ghost function MarkAfter(limit: Limit, body: real -> int, times: seq<real>): Mark {
    if times == [] then Mark(None, 0)
    else
      var last := times[|times| - 1];
      Look(limit, MarkAfter(limit, body, times[..|times| - 1]), last, body(last)).0
  }

  /** Whether the look at `times[n]` cuts the body off, no look before it having done so. */
  ghost predicate CutAt(limit: Limit, body: real -> int, times: seq<real>, n: nat)
    requires n < |times|
  {
    Look(limit, MarkAfter(limit, body, times[..n]), times[n], body(times[n])).1
  }

  /** The look whose mark stands at `times[n]`. */
  ghost function Anchor(limit: Limit, body: real -> int, times: seq<real>, n: nat): (a: nat)
    requires n < |times|
    ensures a <= n
  {
    if n == 0 then 0
    else
      var a := Anchor(limit, body, times, n - 1);
      if (body(times[n]) - body(times[a])) as real >= Quota(limit) then n else a
  }

  /** The mark is always a look at the body: its time, and what had moved by then. */
  lemma {:induction false} MarkIsAnchor(limit: Limit, body: real -> int, times: seq<real>, n: nat)
    requires n < |times|
    ensures MarkAfter(limit, body, times[..n + 1])
         == Mark(Some(times[Anchor(limit, body, times, n)]), body(times[Anchor(limit, body, times, n)]))
  {
    assert times[..n + 1][..n] == times[..n];
    assert times[..n + 1][n] == times[n];
    if n == 0 {
      assert times[..0] == [];
    } else {
      MarkIsAnchor(limit, body, times, n - 1);
    }
  }

  /** A look cuts the body off exactly when it moved less than the quota since its mark, at least the
      watched seconds ago; the first look only marks. */
  lemma CutExactly(limit: Limit, body: real -> int, times: seq<real>, n: nat)
    requires n < |times|
    ensures CutAt(limit, body, times, n) <==>
      && n > 0
      && var a := Anchor(limit, body, times, n - 1);
      && (body(times[n]) - body(times[a])) as real < Quota(limit)
      && times[n] - times[a] >= limit.seconds
  {
    if n == 0 {
      assert times[..0] == [];
    } else {
      MarkIsAnchor(limit, body, times, n - 1);
    }
  }

  /** Only a slow body is cut: some earlier look was at least the watched seconds ago, and the body moved
      less than the quota since. */
  lemma CutWasSlow(limit: Limit, body: real -> int, times: seq<real>, n: nat)
    requires n < |times| && CutAt(limit, body, times, n)
    ensures exists a :: 0 <= a < n && times[n] - times[a] >= limit.seconds
                        && (body(times[n]) - body(times[a])) as real < Quota(limit)
  {
    CutExactly(limit, body, times, n);
    var a := Anchor(limit, body, times, n - 1);
    assert times[n] - times[a] >= limit.seconds;
  }

  /** A body that moves the quota in every window of the watched seconds is never cut. */
  lemma SteadyIsNeverCut(limit: Limit, body: real -> int, times: seq<real>, n: nat)
    requires n < |times| && Body(body) && Ordered(times)
    requires forall t :: times[0] <= t && t + limit.seconds <= times[n] ==>
      (body(t + limit.seconds) - body(t)) as real >= Quota(limit)
    ensures !CutAt(limit, body, times, n)
  {
    CutExactly(limit, body, times, n);
    if n > 0 {
      var t := times[Anchor(limit, body, times, n - 1)];
      assert t + limit.seconds <= times[n] ==> body(t + limit.seconds) <= body(times[n]);
    }
  }

  /** While a body stands still its mark does. */
  lemma {:induction false} StalledKeepsMark(limit: Limit, body: real -> int, times: seq<real>, i: nat, n: nat)
    requires i <= n < |times| && Quota(limit) > 0.0
    requires forall j :: i <= j <= n ==> body(times[j]) == body(times[i])
    ensures Anchor(limit, body, times, n) == Anchor(limit, body, times, i)
  {
    if i < n {
      StalledKeepsMark(limit, body, times, i, n - 1);
      assert body(times[n]) == body(times[i]) == body(times[n - 1]);
      AnchorIsRecent(limit, body, times, n - 1);
    }
  }

  /** Less than the quota was moved since the mark. */
  lemma AnchorIsRecent(limit: Limit, body: real -> int, times: seq<real>, n: nat)
    requires n < |times| && Quota(limit) > 0.0
    ensures (body(times[n]) - body(times[Anchor(limit, body, times, n)])) as real < Quota(limit)
  {
  }

  /** A body that stands still from look `i` on is cut by a later look exactly when that is at least the watched
      seconds after the look at which it last kept pace; so the first such look cuts it. */
  lemma StalledIsCut(limit: Limit, body: real -> int, times: seq<real>, i: nat, n: nat)
    requires i < n < |times| && Quota(limit) > 0.0
    requires forall j :: i <= j <= n ==> body(times[j]) == body(times[i])
    ensures CutAt(limit, body, times, n) <==> times[n] - times[Anchor(limit, body, times, i)] >= limit.seconds
  {
    CutExactly(limit, body, times, n);
    StalledKeepsMark(limit, body, times, i, n - 1);
    AnchorIsRecent(limit, body, times, n - 1);
    assert body(times[n]) == body(times[i]) == body(times[n - 1]);
  }

  // ----- What a body that is not cut must have moved -----

  ghost predicate Uncut(limit: Limit, body: real -> int, times: seq<real>) {
    forall n :: 0 <= n < |times| ==> !CutAt(limit, body, times, n)
  }

  ghost predicate Close(times: seq<real>, tick: real) {
    forall i :: 0 < i < |times| ==> times[i] - times[i - 1] <= tick
  }

  /** While a body is not cut, its mark is younger than the watched seconds. */
  lemma MarkIsYoung(limit: Limit, body: real -> int, times: seq<real>, n: nat)
    requires n < |times| && Uncut(limit, body, times) && limit.seconds > 0.0
    ensures times[n] - times[Anchor(limit, body, times, n)] < limit.seconds
  {
    CutExactly(limit, body, times, n);
    assert !CutAt(limit, body, times, n);
  }

  /** Between two looks that move less than the quota, the mark moves at most once. */
  lemma {:induction false} MarkMovesOnce(limit: Limit, body: real -> int, times: seq<real>, i: nat, k: nat)
    requires i <= k < |times| && Body(body) && Ordered(times) && Quota(limit) > 0.0
    requires (body(times[k]) - body(times[i])) as real < Quota(limit)
    ensures var b := Anchor(limit, body, times, k);
      b == Anchor(limit, body, times, i) ||
          (i < b && Anchor(limit, body, times, b - 1) == Anchor(limit, body, times, i))
  {
    hide Quota;
    if i < k {
      assert body(times[k - 1]) <= body(times[k]);
      MarkMovesOnce(limit, body, times, i, k - 1);
      var a := Anchor(limit, body, times, k - 1);
      if i < a {
        assert body(times[i]) <= body(times[a]);
      }
    }
  }

  /** What survives the watch: over any window of looks `tick` apart in which it moves less than the
      quota, a body not cut off spends less than twice the watched seconds and one tick. */
  lemma SurvivorsKeepPace(limit: Limit, body: real -> int, times: seq<real>, tick: real, i: nat, k: nat)
    requires i <= k < |times| && Body(body) && Ordered(times) && Close(times, tick)
    requires limit.seconds > 0.0 && Quota(limit) > 0.0 && tick >= 0.0 && Uncut(limit, body, times)
    requires (body(times[k]) - body(times[i])) as real < Quota(limit)
    ensures times[k] - times[i] < 2.0 * limit.seconds + tick
  {
    MarkMovesOnce(limit, body, times, i, k);
    var a, b := Anchor(limit, body, times, i), Anchor(limit, body, times, k);
    MarkIsYoung(limit, body, times, k);
    assert times[a] <= times[i];
    if b != a {
      MarkIsYoung(limit, body, times, b - 1);
      assert times[b] - times[b - 1] <= tick;
    }
  }

  // ----- A window of the watched seconds may pass below the quota -----

  /** Ten bytes a second over two seconds: nineteen bytes in the first second, the last one a second later. */
  ghost function Bursty(t: real): int {
    if t < 1.0 then 0 else if t < 2.0 then 19 else 20
  }

  /** The watch looks back to its mark, not over every window: this body moves one byte in two seconds,
      where the quota is twenty, and is not cut. */
  lemma SlowWindowSurvives()
    ensures var limit, times := Limit(10, 2.0), [0.0, 1.0, 2.0, 3.0];
      && Body(Bursty) && Ordered(times) && Uncut(limit, Bursty, times)
      && times[3] - times[1] >= limit.seconds
      && (Bursty(times[3]) - Bursty(times[1])) as real < Quota(limit)
  {
    var limit, times := Limit(10, 2.0), [0.0, 1.0, 2.0, 3.0];
    assert Anchor(limit, Bursty, times, 0) == 0;
    assert Anchor(limit, Bursty, times, 1) == 0;
    assert Anchor(limit, Bursty, times, 2) == 2;
    forall n | 0 <= n < |times| ensures !CutAt(limit, Bursty, times, n) {
      CutExactly(limit, Bursty, times, n);
    }
  }
}
