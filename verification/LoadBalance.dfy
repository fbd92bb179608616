/**
 Longest-first load balancing: jobs dealt in descending size, each to the machine with the least load.
 No machine ends far above any other assignment's fullest one.
 */
module LoadBalance {
  import opened Products

  /** The load of machine `i`: the sizes of the jobs assigned to it. */
  function Load(sizes: seq<nat>, assign: seq<nat>, i: nat): nat
    requires |sizes| == |assign|
  {
    if sizes == [] then 0
    else
      var last := |sizes| - 1;
      Load(sizes[..last], assign[..last], i) + if assign[last] == i then sizes[last] else 0
  }

  ghost function Total(sizes: seq<nat>): nat {
    if sizes == [] then 0 else Total(sizes[..|sizes| - 1]) + sizes[|sizes| - 1]
  }

  /** The loads of the first `m` machines together. */
  ghost function Loads(sizes: seq<nat>, assign: seq<nat>, m: nat): nat
    requires |sizes| == |assign|
  {
    if m == 0 then 0 else Loads(sizes, assign, m - 1) + Load(sizes, assign, m - 1)
  }

  ghost predicate Assignment(sizes: seq<nat>, assign: seq<nat>, m: nat) {
    |sizes| == |assign| && forall j :: 0 <= j < |assign| ==> assign[j] < m
  }

  /** Every machine's load is at most `most`. */
  ghost predicate Within(sizes: seq<nat>, assign: seq<nat>, m: nat, most: nat) {
    Assignment(sizes, assign, m) && forall i :: 0 <= i < m ==> Load(sizes, assign, i) <= most
  }

  /** Job `j` went to a machine with the least load then. */
  ghost predicate DealtLeast(sizes: seq<nat>, assign: seq<nat>, m: nat, j: nat)
    requires |sizes| == |assign| && j < |sizes|
  {
    assign[j] < m && forall i :: 0 <= i < m ==>
        Load(sizes[..j], assign[..j], assign[j]) <= Load(sizes[..j], assign[..j], i)
  }

  ghost predicate Greedy(sizes: seq<nat>, assign: seq<nat>, m: nat) {
    |sizes| == |assign| && forall j :: 0 <= j < |sizes| ==> DealtLeast(sizes, assign, m, j)
  }

  ghost predicate Descending(sizes: seq<nat>) {
    forall i, j :: 0 <= i < j < |sizes| ==> sizes[i] >= sizes[j]
  }

  // ----- Sums -----

  lemma {:induction false} LoadsGrow(sizes: seq<nat>, assign: seq<nat>, m: nat)
    requires |sizes| == |assign| > 0
    ensures var last := |sizes| - 1;
      Loads(sizes, assign, m) == Loads(sizes[..last], assign[..last], m) + if assign[last] < m then sizes[last] else 0
  {
    if m > 0 {
      LoadsGrow(sizes, assign, m - 1);
    }
  }

  /** The machines' loads add up to the jobs' sizes. */
  lemma {:induction false} LoadsAddUp(sizes: seq<nat>, assign: seq<nat>, m: nat)
    requires Assignment(sizes, assign, m)
    ensures Loads(sizes, assign, m) == Total(sizes)
  {
    if sizes == [] {
      NoLoads(m);
    } else {
      LoadsGrow(sizes, assign, m);
      LoadsAddUp(sizes[..|sizes| - 1], assign[..|sizes| - 1], m);
    }
  }

  lemma {:induction false} NoLoads(m: nat)
    ensures Loads([], [], m) == 0
  {
    if m > 0 {
      NoLoads(m - 1);
    }
  }

  lemma {:induction false} LoadsAtLeast(sizes: seq<nat>, assign: seq<nat>, m: nat, least: nat)
    requires |sizes| == |assign| && forall i :: 0 <= i < m ==> Load(sizes, assign, i) >= least
    ensures Loads(sizes, assign, m) >= m * least
  {
    if m > 0 {
      LoadsAtLeast(sizes, assign, m - 1, least);
      assert m * least == (m - 1) * least + least;
    }
  }

  lemma {:induction false} LoadsAtMost(sizes: seq<nat>, assign: seq<nat>, m: nat, most: nat)
    requires |sizes| == |assign| && forall i :: 0 <= i < m ==> Load(sizes, assign, i) <= most
    ensures Loads(sizes, assign, m) <= m * most
  {
    if m > 0 {
      LoadsAtMost(sizes, assign, m - 1, most);
      assert m * most == (m - 1) * most + most;
    }
  }

  /** Later jobs only add to a machine's load. */
  lemma {:induction false} LoadOfPrefix(sizes: seq<nat>, assign: seq<nat>, i: nat, n: nat)
    requires |sizes| == |assign| && n <= |sizes|
    ensures Load(sizes[..n], assign[..n], i) <= Load(sizes, assign, i)
    ensures (forall j :: n <= j < |sizes| ==> assign[j] != i) ==>
            Load(sizes[..n], assign[..n], i) == Load(sizes, assign, i)
    decreases |sizes|
  {
    if n == |sizes| {
      assert sizes[..n] == sizes && assign[..n] == assign;
    } else {
      var last := |sizes| - 1;
      LoadOfPrefix(sizes[..last], assign[..last], i, n);
      assert sizes[..last][..n] == sizes[..n] && assign[..last][..n] == assign[..n];
    }
  }

  /** The last job of a machine that has any. */
  lemma {:induction false} LastJob(sizes: seq<nat>, assign: seq<nat>, i: nat) returns (j: nat)
    requires |sizes| == |assign| && Load(sizes, assign, i) > 0
    ensures j < |sizes| && assign[j] == i && forall k :: j < k < |sizes| ==> assign[k] != i
    decreases |sizes|
  {
    var last := |sizes| - 1;
    if assign[last] == i {
      j := last;
    } else {
      j := LastJob(sizes[..last], assign[..last], i);
    }
  }

  /** A dealt machine's load is that before its last job, which was the least then, and that job. */
  lemma LastDeal(sizes: seq<nat>, assign: seq<nat>, m: nat, i: nat) returns (j: nat)
    requires Greedy(sizes, assign, m) && Load(sizes, assign, i) > 0
    ensures j < |sizes| && assign[j] == i && i < m
    ensures Load(sizes, assign, i) == Load(sizes[..j], assign[..j], i) + sizes[j]
    ensures forall k :: 0 <= k < m ==> Load(sizes[..j], assign[..j], i) <= Load(sizes[..j], assign[..j], k)
  {
    j := LastJob(sizes, assign, i);
    assert DealtLeast(sizes, assign, m, j);
    LoadOfPrefix(sizes, assign, i, j + 1);
    assert sizes[..j + 1][..j] == sizes[..j] && assign[..j + 1][..j] == assign[..j];
  }

  lemma GreedyPrefix(sizes: seq<nat>, assign: seq<nat>, m: nat, n: nat)
    requires Greedy(sizes, assign, m) && n <= |sizes|
    ensures Greedy(sizes[..n], assign[..n], m) && Assignment(sizes[..n], assign[..n], m)
  {
    forall j | 0 <= j < n ensures DealtLeast(sizes[..n], assign[..n], m, j) && assign[..n][j] < m {
      assert DealtLeast(sizes, assign, m, j);
      assert sizes[..n][..j] == sizes[..j] && assign[..n][..j] == assign[..j];
    }
  }

  // ----- Balance -----

  /** Load gap: after every deal, two machines' loads differ by at most the largest job. */
  lemma GapWithinLargest(sizes: seq<nat>, assign: seq<nat>, m: nat, n: nat, largest: nat, i: nat, k: nat)
    requires Greedy(sizes, assign, m) && n <= |sizes| && i < m && k < m
    requires forall j :: 0 <= j < |sizes| ==> sizes[j] <= largest
    ensures Load(sizes[..n], assign[..n], i) <= Load(sizes[..n], assign[..n], k) + largest
  {
    GreedyPrefix(sizes, assign, m, n);
    if Load(sizes[..n], assign[..n], i) > 0 {
      var j := LastDeal(sizes[..n], assign[..n], m, i);
      LoadOfPrefix(sizes[..n], assign[..n], k, j);
    }
  }

  /** So no load is above its share of the total and what the other machines may lack of the largest job. */
  lemma LoadNearAverage(sizes: seq<nat>, assign: seq<nat>, m: nat, largest: nat, i: nat)
    requires Greedy(sizes, assign, m) && i < m
    requires forall j :: 0 <= j < |sizes| ==> sizes[j] <= largest
    ensures m * Load(sizes, assign, i) <= Total(sizes) + (m - 1) * largest
  {
    if Load(sizes, assign, i) > 0 {
      var j := LastDeal(sizes, assign, m, i);
      ShareOfTotal(sizes, assign, m, j, i);
      MulMonotone(m - 1, sizes[j], largest);
    } else {
      MulMonotone(m - 1, 0, largest);
    }
  }

  /** What a machine holds before its last job, times the machines, is at most the jobs before it. */
  lemma ShareOfTotal(sizes: seq<nat>, assign: seq<nat>, m: nat, j: nat, i: nat)
    requires Greedy(sizes, assign, m) && j < |sizes| && m > 0
    requires Load(sizes, assign, i) == Load(sizes[..j], assign[..j], i) + sizes[j]
    requires forall k :: 0 <= k < m ==> Load(sizes[..j], assign[..j], i) <= Load(sizes[..j], assign[..j], k)
    ensures m * Load(sizes, assign, i) <= Total(sizes[..j + 1]) + (m - 1) * sizes[j]
    ensures Total(sizes[..j + 1]) <= Total(sizes)
  {
    var before := Load(sizes[..j], assign[..j], i);
    GreedyPrefix(sizes, assign, m, j);
    LoadsAtLeast(sizes[..j], assign[..j], m, before);
    LoadsAddUp(sizes[..j], assign[..j], m);
    assert sizes[..j + 1][..j] == sizes[..j];
    TotalOfPrefix(sizes, j + 1);
    MulShare(m, before, sizes[j]);
  }

  lemma {:induction false} TotalOfPrefix(sizes: seq<nat>, n: nat)
    requires n <= |sizes|
    ensures Total(sizes[..n]) <= Total(sizes)
    decreases |sizes|
  {
    if n == |sizes| {
      assert sizes[..n] == sizes;
    } else {
      TotalOfPrefix(sizes[..|sizes| - 1], n);
      assert sizes[..|sizes| - 1][..n] == sizes[..n];
    }
  }

  /** No machine stays empty when there are at least as many jobs, all of some size. */
  lemma NoneEmpty(sizes: seq<nat>, assign: seq<nat>, m: nat, i: nat)
    requires Greedy(sizes, assign, m) && i < m <= |sizes|
    requires forall j :: 0 <= j < |sizes| ==> sizes[j] > 0
    ensures Load(sizes, assign, i) > 0
  {
    if Load(sizes, assign, i) == 0 {
      var ones := Ones(|sizes|);
      forall k | 0 <= k < m ensures Load(ones, assign, k) <= 1 {
        OneEach(sizes, assign, m, i, k);
      }
      OneEach(sizes, assign, m, i, i);
      LoadsBelow(ones, assign, m, i);
      GreedyPrefix(sizes, assign, m, |sizes|);
      assert assign[..|sizes|] == assign;
      LoadsAddUp(ones, assign, m);
      TotalOnes(|sizes|);
      assert false;
    }
  }

  ghost function Ones(n: nat): seq<nat> {
    seq(n, _ => 1)
  }

  lemma {:induction false} TotalOnes(n: nat)
    ensures Total(Ones(n)) == n
  {
    if n > 0 {
      TotalOnes(n - 1);
      assert Ones(n)[..n - 1] == Ones(n - 1);
    }
  }

  /** While machine `i` is empty, no machine is dealt a second job. */
  lemma {:induction false} OneEach(sizes: seq<nat>, assign: seq<nat>, m: nat, i: nat, k: nat)
    requires Greedy(sizes, assign, m) && i < m && k < m && Load(sizes, assign, i) == 0
    requires forall j :: 0 <= j < |sizes| ==> sizes[j] > 0
    ensures Load(Ones(|sizes|), assign, k) <= 1
    ensures k == i ==> Load(Ones(|sizes|), assign, k) == 0
    ensures Load(sizes, assign, k) == 0 ==> Load(Ones(|sizes|), assign, k) == 0
    decreases |sizes|
  {
    if sizes != [] {
      var last := |sizes| - 1;
      GreedyPrefix(sizes, assign, m, last);
      assert DealtLeast(sizes, assign, m, last);
      assert Ones(|sizes|)[..last] == Ones(last);
      OneEach(sizes[..last], assign[..last], m, i, k);
    }
  }

  lemma {:induction false} LoadsBelow(sizes: seq<nat>, assign: seq<nat>, m: nat, i: nat)
    requires |sizes| == |assign| && forall k :: 0 <= k < m ==> Load(sizes, assign, k) <= 1
    requires Load(sizes, assign, i) == 0
    ensures Loads(sizes, assign, m) <= m - if i < m then 1 else 0
  {
    if m > 0 {
      LoadsBelow(sizes, assign, m - 1, i);
    }
  }

  // ----- Graham's bound -----

  /** A job weighs two when it leaves no room for the smallest one, and one otherwise. */
  ghost function Weights(sizes: seq<nat>, room: nat): seq<nat> {
    seq(|sizes|, j requires 0 <= j < |sizes| => if sizes[j] > room then 2 else 1)
  }

  /** A machine loaded above `room` weighs at least two. */
  lemma {:induction false} LoadedWeighs(sizes: seq<nat>, assign: seq<nat>, i: nat, room: nat)
    requires |sizes| == |assign|
    ensures Load(Weights(sizes, room), assign, i) == 0 ==> Load(sizes, assign, i) == 0
    ensures Load(Weights(sizes, room), assign, i) == 1 ==> Load(sizes, assign, i) <= room
  {
    if sizes != [] {
      var last := |sizes| - 1;
      assert Weights(sizes, room)[..last] == Weights(sizes[..last], room);
      LoadedWeighs(sizes[..last], assign[..last], i, room);
    }
  }

  /** A machine that weighs three holds more than `room` and the smallest job, once three of those do. */
  lemma {:induction false} WeightIsLoad(sizes: seq<nat>, assign: seq<nat>, i: nat, room: nat, smallest: nat)
    requires |sizes| == |assign| && forall j :: 0 <= j < |sizes| ==> sizes[j] >= smallest
    requires 3 * smallest > room + smallest
    ensures var weight, load := Load(Weights(sizes, room), assign, i), Load(sizes, assign, i);
      && (weight == 1 ==> load >= smallest)
      && (weight == 2 ==> load >= 2 * smallest || load > room)
      && (weight >= 3 ==> load > room + smallest)
  {
    if sizes != [] {
      var last := |sizes| - 1;
      assert Weights(sizes, room)[..last] == Weights(sizes[..last], room);
      WeightIsLoad(sizes[..last], assign[..last], i, room, smallest);
    }
  }

  /** When every job is above a third of `most`, and some assignment keeps within it, so does dealing:
      by weight, dealing past it would need more jobs than that assignment has room for. */
  lemma LargeJobsFit(sizes: seq<nat>, smallest: nat, assign: seq<nat>, other: seq<nat>, m: nat, most: nat, i: nat)
    requires Assignment(sizes, assign, m) && m > 0
    requires forall j :: 0 <= j < |sizes| ==> sizes[j] >= smallest
    requires 3 * smallest > most && Within(sizes + [smallest], other, m, most)
    requires forall k :: 0 <= k < m ==> Load(sizes, assign, i) <= Load(sizes, assign, k)
    ensures Load(sizes, assign, i) + smallest <= most
  {
    var all := sizes + [smallest];
    JobFits(all, other, m, most, |sizes|);
    var room := most - smallest;
    if Load(sizes, assign, i) > room {
      var weights := Weights(sizes, room);
      assert Weights(all, room)[..|sizes|] == weights;
      forall k | 0 <= k < m ensures Load(weights, assign, k) >= 2 {
        LoadedWeighs(sizes, assign, k, room);
      }
      LoadsAtLeast(weights, assign, m, 2);
      LoadsAddUp(weights, assign, m);
      forall k | 0 <= k < m ensures Load(Weights(all, room), other, k) <= 2 {
        WeightIsLoad(all, other, k, room, smallest);
      }
      LoadsAtMost(Weights(all, room), other, m, 2);
      LoadsAddUp(Weights(all, room), other, m);
      assert false;
    }
  }

  /** A job is no larger than the load of its machine. */
  lemma {:induction false} JobFits(sizes: seq<nat>, assign: seq<nat>, m: nat, most: nat, j: nat)
    requires Within(sizes, assign, m, most) && j < |sizes|
    ensures sizes[j] <= most
  {
    LoadOfPrefix(sizes, assign, assign[j], j + 1);
    assert sizes[..j + 1][j] == sizes[j] && assign[..j + 1][j] == assign[j];
  }

  lemma WithinPrefix(sizes: seq<nat>, assign: seq<nat>, m: nat, most: nat, n: nat)
    requires Within(sizes, assign, m, most) && n <= |sizes|
    ensures Within(sizes[..n], assign[..n], m, most)
  {
    forall i | 0 <= i < m ensures Load(sizes[..n], assign[..n], i) <= most {
      LoadOfPrefix(sizes, assign, i, n);
    }
  }

  /** Graham's bound: dealing longest first to `m` machines leaves every load within 4/3 - 1/(3m) of the
      fullest load of any assignment whatever. */
  lemma GrahamBound(sizes: seq<nat>, assign: seq<nat>, other: seq<nat>, m: nat, most: nat, i: nat)
    requires Greedy(sizes, assign, m) && Descending(sizes) && Within(sizes, other, m, most) && i < m
    ensures 3 * m * Load(sizes, assign, i) <= (4 * m - 1) * most
  {
    var load := Load(sizes, assign, i);
    if load > 0 {
      var j := LastDeal(sizes, assign, m, i);
      var first, last := sizes[..j + 1], sizes[j];
      WithinPrefix(sizes, other, m, most, j + 1);
      assert first == sizes[..j] + [last];
      if 3 * last > most {
        GreedyPrefix(sizes, assign, m, j);
        LargeJobsFit(sizes[..j], last, assign[..j], other[..j + 1], m, most, i);
        LargeLast(m, load, most);
      } else {
        ShareOfTotal(sizes, assign, m, j, i);
        LoadsAtMost(first, other[..j + 1], m, most);
        LoadsAddUp(first, other[..j + 1], m);
        SmallLast(m, load, last, most);
      }
    }
  }

  lemma MulShare(m: nat, a: nat, b: nat)
    requires m > 0
    ensures m * (a + b) == m * a + (m - 1) * b + b
  {
  }

  lemma LargeLast(m: nat, load: nat, most: nat)
    requires m > 0 && load <= most
    ensures 3 * m * load <= (4 * m - 1) * most
  {
    MulMonotone(3 * m, load, most);
    MulMonotone(most, 3 * m, 4 * m - 1);
    assert most * (3 * m) == 3 * m * most && most * (4 * m - 1) == (4 * m - 1) * most;
  }

  lemma SmallLast(m: nat, load: nat, last: nat, most: nat)
    requires m > 0 && m * load <= m * most + (m - 1) * last && 3 * last <= most
    ensures 3 * m * load <= (4 * m - 1) * most
  {
    MulMonotone(m - 1, 3 * last, most);
    MulTriple(m - 1, last);
    MulTriple(m, load);
    MulSplit(m, most);
  }

  lemma MulTriple(a: nat, b: nat)
    ensures a * (3 * b) == 3 * (a * b) && 3 * a * b == 3 * (a * b)
  {
  }

  lemma MulSplit(m: nat, most: nat)
    requires m > 0
    ensures (4 * m - 1) * most == 3 * (m * most) + (m - 1) * most
  {
  }
}
