/** The sanitizer inventory dealt to shards: whole harnesses, the longest estimated one first. */
module ShardPlan {
  import opened LoadBalance
  import opened SortKeys
  import opened Options

  datatype Result<T> = Ok(value: T) | Err

  /** What a build of tests is told apart by. */
  datatype Harness = Harness(manifest: Option<string>, package: string, testTarget: string, features: seq<string>)

  datatype Target = Target(id: string, harness: Harness)

  datatype Inventory = Inventory(prFuzzSeconds: nat, preparedTargets: seq<string>, targets: seq<Target>)

  datatype Estimate = Estimate(harness: Harness, seconds: nat)

  const PREPARED_BUILD_SECONDS: nat := 1800
  const HARNESS_BUILD_SECONDS: nat := 180
  const CAMPAIGN_OVERHEAD_SECONDS: nat := 15

  /** Loading an inventory refuses a repeated target id. */
  ghost predicate Loaded(inventory: Inventory) {
    forall i, j :: 0 <= i < j < |inventory.targets| ==> inventory.targets[i].id != inventory.targets[j].id
  }

  // ----- Sort keys -----

  function SortKey(h: Harness): seq<string> {
    [if h.manifest.Some? then h.manifest.value else "None", h.package, h.testTarget] + h.features
  }

  /** Sort keys tell harnesses apart, but for a missing manifest and one named `None`. */
  lemma SortKeyDistinct(a: Harness, b: Harness)
    ensures SortKey(a) == SortKey(b) <==>
      a == b || (a.(manifest := None) == b.(manifest := None) && {a.manifest, b.manifest} == {None, Some("None")})
  {
    if SortKey(a) == SortKey(b) {
      assert SortKey(a)[0] == SortKey(b)[0] && SortKey(a)[1] == SortKey(b)[1] && SortKey(a)[2] == SortKey(b)[2];
      assert SortKey(a)[3..] == a.features && SortKey(b)[3..] == b.features;
      if a.manifest != b.manifest {
        assert {a.manifest, b.manifest} == {None, Some("None")};
      }
    }
    assert a.manifest in {a.manifest, b.manifest} && b.manifest in {a.manifest, b.manifest};
  }

  /** Sort keys compare manifests first, a missing one as `None`, then packages, test targets and features. */
  lemma SortKeyOrder(a: Harness, b: Harness)
    ensures var x, y := if a.manifest.Some? then a.manifest.value else "None",
                        if b.manifest.Some? then b.manifest.value else "None";
      KeyLess(SortKey(a), SortKey(b)) <==>
        if x != y then StringLess(x, y)
        else if a.package != b.package then StringLess(a.package, b.package)
        else if a.testTarget != b.testTarget then StringLess(a.testTarget, b.testTarget)
        else KeyLess(a.features, b.features)
  {
    hide StringLess;
    var p, q := SortKey(a), SortKey(b);
    assert p[1..][1..][1..] == a.features && q[1..][1..][1..] == b.features;
    assert p[1..][0] == a.package && q[1..][0] == b.package;
    assert p[1..][1..][0] == a.testTarget && q[1..][1..][0] == b.testTarget;
    assert KeyLess(p, q) == if p[0] == q[0] then KeyLess(p[1..], q[1..]) else StringLess(p[0], q[0]);
    assert KeyLess(p[1..], q[1..]) ==
           if p[1] == q[1] then KeyLess(p[1..][1..], q[1..][1..]) else StringLess(p[1], q[1]);
    assert KeyLess(p[1..][1..], q[1..][1..]) ==
           if p[2] == q[2] then KeyLess(p[1..][1..][1..], q[1..][1..][1..]) else StringLess(p[2], q[2]);
  }

  /** The longer estimate first, and equal ones by sort key. */
  predicate Before(a: Estimate, b: Estimate) {
    a.seconds > b.seconds || (a.seconds == b.seconds && KeyLess(SortKey(a.harness), SortKey(b.harness)))
  }

  // ----- Estimates -----

  /** The harnesses of the targets, each where its first target stands. */
  function Harnesses(targets: seq<Target>): (hs: seq<Harness>)
    ensures forall h :: h in hs <==> exists t :: t in targets && t.harness == h
    ensures forall i, j :: 0 <= i < j < |hs| ==> hs[i] != hs[j]
  {
    if targets == [] then []
    else
      var last := targets[|targets| - 1];
      var init := targets[..|targets| - 1];
      var before := Harnesses(init);
      assert targets == init + [last];
      if last.harness in before then before else before + [last.harness]
  }

  function Members(targets: seq<Target>, h: Harness): nat {
    if targets == [] then 0
    else Members(targets[..|targets| - 1], h) + if targets[|targets| - 1].harness == h then 1 else 0
  }

  /** The harnesses CI builds ahead, named by one of their targets. */
  ghost predicate Prepared(inventory: Inventory, h: Harness) {
    exists t :: t in inventory.targets && t.harness == h && t.id in inventory.preparedTargets
  }

  ghost function Seconds(inventory: Inventory, h: Harness): nat {
    (if Prepared(inventory, h) then PREPARED_BUILD_SECONDS else HARNESS_BUILD_SECONDS)
      + Members(inventory.targets, h) * (inventory.prFuzzSeconds + CAMPAIGN_OVERHEAD_SECONDS)
  }

  ghost function Estimates(inventory: Inventory): seq<Estimate> {
    var hs := Harnesses(inventory.targets);
    seq(|hs|, i requires 0 <= i < |hs| => Estimate(hs[i], Seconds(inventory, hs[i])))
  }

  /** A harness without targets takes an unprepared build. One more target adds one campaign to its harness, and, if
      it is the harness's first prepared one, the longer build; to no other harness does it add anything. */
  lemma OneMoreTarget(inventory: Inventory, t: Target, h: Harness)
    ensures Seconds(inventory.(targets := []), h) == 180
    ensures var build := if t.id in inventory.preparedTargets && !Prepared(inventory, h) then 1800 - 180 else 0;
      Seconds(inventory.(targets := inventory.targets + [t]), h) ==
      Seconds(inventory, h) + if t.harness == h then inventory.prFuzzSeconds + 15 + build else 0
  {
    var more := inventory.(targets := inventory.targets + [t]);
    assert more.targets[..|inventory.targets|] == inventory.targets;
    assert Prepared(more, h) <==> Prepared(inventory, h) || (t.harness == h && t.id in inventory.preparedTargets) by {
      if Prepared(inventory, h) {
        var x :| x in inventory.targets && x.harness == h && x.id in inventory.preparedTargets;
        assert x in more.targets;
      }
      assert t in more.targets;
    }
    var each := inventory.prFuzzSeconds + CAMPAIGN_OVERHEAD_SECONDS;
    assert (Members(inventory.targets, h) + 1) * each == Members(inventory.targets, h) * each + each;
  }

  // ----- Sorting -----

  ghost predicate Sorted(es: seq<Estimate>) {
    forall i, j :: 0 <= i < j < |es| ==> !Before(es[j], es[i])
  }

  ghost predicate DistinctKeys(es: seq<Estimate>) {
    forall i, j :: 0 <= i < j < |es| ==> SortKey(es[i].harness) != SortKey(es[j].harness)
  }

  lemma BeforeTransitive(a: Estimate, b: Estimate, c: Estimate)
    ensures Before(a, b) && Before(b, c) ==> Before(a, c)
    ensures SortKey(a.harness) != SortKey(b.harness) ==> Before(a, b) || Before(b, a)
    ensures Before(a, b) ==> !Before(b, a)
    ensures !Before(b, a) && !Before(c, b) ==> !Before(c, a)
  {
    KeysAreOrdered();
    var x, y, z := SortKey(a.harness), SortKey(b.harness), SortKey(c.harness);
    assert KeyLess(x, y) && KeyLess(y, x) ==> KeyLess(x, x);
    assert x != y ==> KeyLess(x, y) || KeyLess(y, x);
    assert y != z ==> KeyLess(y, z) || KeyLess(z, y);
    assert KeyLess(x, y) && KeyLess(y, z) ==> KeyLess(x, z);
    assert KeyLess(z, x) && KeyLess(x, y) ==> KeyLess(z, y);
    assert KeyLess(z, x) && KeyLess(x, z) ==> KeyLess(x, x);
    assert KeyLess(y, z) && KeyLess(z, x) ==> KeyLess(y, x);
  }

  /** A stable sort: the next estimate goes before the first one it belongs before. */
  function Insert(es: seq<Estimate>, e: Estimate): seq<Estimate> {
    if es == [] then [e]
    else if Before(e, es[|es| - 1]) then Insert(es[..|es| - 1], e) + [es[|es| - 1]]
    else es + [e]
  }

  function Sort(es: seq<Estimate>): seq<Estimate> {
    if es == [] then [] else Insert(Sort(es[..|es| - 1]), es[|es| - 1])
  }

  lemma {:induction false} InsertAdds(es: seq<Estimate>, e: Estimate)
    ensures multiset(Insert(es, e)) == multiset(es) + multiset{e}
    ensures forall x :: x in Insert(es, e) <==> x == e || x in es
    decreases |es|
  {
    hide Before;
    if es != [] {
      var last, init := es[|es| - 1], es[..|es| - 1];
      assert es == init + [last];
      InsertAdds(init, e);
    }
  }

  lemma {:induction false} InsertSorts(es: seq<Estimate>, e: Estimate)
    requires Sorted(es)
    ensures Sorted(Insert(es, e))
    decreases |es|
  {
    hide Before;
    if es != [] {
      var last, init := es[|es| - 1], es[..|es| - 1];
      assert es == init + [last];
      if Before(e, last) {
        InsertSorts(init, e);
        InsertAdds(init, e);
        forall x | x in Insert(init, e) ensures !Before(last, x) {
          BeforeTransitive(e, last, last);
          if x != e {
            assert x in init;
          }
        }
      } else {
        forall i | 0 <= i < |es| ensures !Before(e, es[i]) {
          BeforeTransitive(es[i], last, e);
        }
      }
    }
  }

  lemma {:induction false} SortSorts(es: seq<Estimate>)
    ensures Sorted(Sort(es)) && multiset(Sort(es)) == multiset(es)
  {
    if es != [] {
      SortSorts(es[..|es| - 1]);
      InsertSorts(Sort(es[..|es| - 1]), es[|es| - 1]);
      InsertAdds(Sort(es[..|es| - 1]), es[|es| - 1]);
      assert es == es[..|es| - 1] + [es[|es| - 1]];
    }
  }

  lemma HeadsAgree(a: seq<Estimate>, b: seq<Estimate>)
    requires Sorted(a) && Sorted(b) && multiset(a) == multiset(b) && DistinctKeys(a) && a != [] && b != []
    ensures a[0] == b[0]
  {
    hide Before, SortKey;
    assert a[0] in multiset(b) && b[0] in multiset(a);
    var i :| 0 <= i < |b| && b[i] == a[0];
    var j :| 0 <= j < |a| && a[j] == b[0];
    if j > 0 {
      BeforeTransitive(a[0], a[j], a[j]);
    }
  }

  /** With distinct keys there is one sorted order. */
  lemma {:induction false} SortedUnique(a: seq<Estimate>, b: seq<Estimate>)
    requires Sorted(a) && Sorted(b) && multiset(a) == multiset(b) && DistinctKeys(a)
    ensures a == b
    decreases |a|
  {
    hide Before, SortKey;
    SameSize(a, b);
    if a != [] {
      HeadsAgree(a, b);
      TailsAgree(a, b);
      SortedUnique(a[1..], b[1..]);
      assert a == [a[0]] + a[1..] && b == [b[0]] + b[1..];
    }
  }

  lemma SameSize(a: seq<Estimate>, b: seq<Estimate>)
    requires multiset(a) == multiset(b)
    ensures |a| == |b|
  {
    assert |a| == |multiset(a)| == |multiset(b)| == |b|;
  }

  lemma TailsAgree(a: seq<Estimate>, b: seq<Estimate>)
    requires multiset(a) == multiset(b) && a != [] && b != [] && a[0] == b[0]
    ensures multiset(a[1..]) == multiset(b[1..])
  {
    TailOf(a);
    TailOf(b);
  }

  lemma TailOf(es: seq<Estimate>)
    requires es != []
    ensures multiset(es[1..]) == multiset(es) - multiset{es[0]}
  {
    assert es == [es[0]] + es[1..];
  }

  // ----- Dealing -----

  /** The first of the `m` machines with the least load. */
  ghost function Lightest(sizes: seq<nat>, assign: seq<nat>, m: nat): (k: nat)
    requires |sizes| == |assign| && m > 0
    ensures k < m
    ensures forall i :: 0 <= i < m ==> Load(sizes, assign, k) <= Load(sizes, assign, i)
    ensures forall i :: 0 <= i < k ==> Load(sizes, assign, k) < Load(sizes, assign, i)
  {
    if m == 1 then 0
    else
      var k := Lightest(sizes, assign, m - 1);
      if Load(sizes, assign, m - 1) < Load(sizes, assign, k) then m - 1 else k
  }

  ghost function Dealt(sizes: seq<nat>, m: nat): (assign: seq<nat>)
    requires m > 0
    ensures |assign| == |sizes|
  {
    if sizes == [] then []
    else
      var init := sizes[..|sizes| - 1];
      Dealt(init, m) + [Lightest(init, Dealt(init, m), m)]
  }

  lemma {:induction false} DealtPrefix(sizes: seq<nat>, m: nat, n: nat)
    requires m > 0 && n <= |sizes|
    ensures Dealt(sizes[..n], m) == Dealt(sizes, m)[..n]
    decreases |sizes|
  {
    if n == |sizes| {
      assert sizes[..n] == sizes;
    } else {
      DealtPrefix(sizes[..|sizes| - 1], m, n);
      assert sizes[..|sizes| - 1][..n] == sizes[..n];
    }
  }

  lemma DealtIsGreedy(sizes: seq<nat>, m: nat)
    requires m > 0
    ensures Greedy(sizes, Dealt(sizes, m), m)
  {
    var assign := Dealt(sizes, m);
    forall j | 0 <= j < |sizes| ensures DealtLeast(sizes, assign, m, j) {
      DealtPrefix(sizes, m, j);
      DealtPrefix(sizes, m, j + 1);
      assert sizes[..j + 1][..j] == sizes[..j];
      assert assign[..j + 1][j] == Lightest(sizes[..j], assign[..j], m);
    }
  }

  ghost function Sizes(es: seq<Estimate>): (sizes: seq<nat>)
    ensures |sizes| == |es|
  {
    seq(|es|, i requires 0 <= i < |es| => es[i].seconds)
  }

  ghost function Order(inventory: Inventory): seq<Estimate> {
    Sort(Estimates(inventory))
  }

  /** Harnesses are dealt the longest estimated first, and those of equal estimate in the order of their sort keys. */
  lemma LongestFirst(inventory: Inventory)
    ensures multiset(Order(inventory)) == multiset(Estimates(inventory))
    ensures forall i, j :: 0 <= i < j < |Order(inventory)| ==>
      var a, b := Order(inventory)[i], Order(inventory)[j];
      a.seconds >= b.seconds && (a.seconds == b.seconds ==> !KeyLess(SortKey(b.harness), SortKey(a.harness)))
  {
    hide Estimates, Sort, KeyLess, SortKey;
    SortSorts(Estimates(inventory));
    var es := Order(inventory);
    forall i, j | 0 <= i < j < |es| ensures !Before(es[j], es[i]) {
    }
  }

  /** Which shard each harness goes to, in the order they are dealt. */
  ghost function Shards(inventory: Inventory, count: nat): (shards: seq<nat>)
    requires count > 0
    ensures |shards| == |Order(inventory)|
  {
    Dealt(Sizes(Order(inventory)), count)
  }

  /** Target `t` belongs to shard `k`: its harness was dealt to it. */
  ghost predicate InShard(inventory: Inventory, count: nat, h: Harness, k: nat)
    requires count > 0
  {
    exists j :: 0 <= j < |Order(inventory)| && Order(inventory)[j].harness == h && Shards(inventory, count)[j] == k
  }

  ghost predicate Accepts(inventory: Inventory, count: int) {
    1 <= count <= |Harnesses(inventory.targets)|
  }

  lemma {:induction false} DistinctCounted(hs: seq<Harness>)
    requires forall i, j :: 0 <= i < j < |hs| ==> hs[i] != hs[j]
    ensures |set h | h in hs| == |hs|
  {
    if hs == [] {
      assert (set h | h in hs) == {};
    } else {
      var init, last := hs[..|hs| - 1], hs[|hs| - 1];
      DistinctCounted(init);
      assert hs == init + [last];
      assert (set h | h in hs) == (set h | h in init) + {last};
    }
  }

  lemma HarnessesCounted(targets: seq<Target>)
    ensures |Harnesses(targets)| == |set t | t in targets :: t.harness|
  {
    var hs := Harnesses(targets);
    DistinctCounted(hs);
    hide Harnesses;
    assert (set h | h in hs) == set t | t in targets :: t.harness;
  }

  // ----- What a plan is -----

  ghost predicate Estimated(inventory: Inventory, es: seq<Estimate>) {
    && |es| == |Harnesses(inventory.targets)|
    && (forall e: Estimate :: e in es <==>
       e.harness in Harnesses(inventory.targets) && e.seconds == Seconds(inventory, e.harness))
    && forall i, j :: 0 <= i < j < |es| ==> es[i].harness != es[j].harness
  }

  lemma EstimatesHold(inventory: Inventory)
    ensures Estimated(inventory, Estimates(inventory))
  {
    hide Seconds;
    var hs, es := Harnesses(inventory.targets), Estimates(inventory);
    forall e: Estimate | e.harness in hs && e.seconds == Seconds(inventory, e.harness) ensures e in es {
      var i :| 0 <= i < |hs| && hs[i] == e.harness;
      assert es[i] == e;
    }
  }

  /** Every harness is dealt once, with its estimate, the longest first. */
  lemma OrderHolds(inventory: Inventory)
    ensures Estimated(inventory, Order(inventory)) && Sorted(Order(inventory))
    ensures multiset(Order(inventory)) == multiset(Estimates(inventory))
  {
    hide Seconds, Sorted;
    var es, order := Estimates(inventory), Order(inventory);
    EstimatesHold(inventory);
    SortSorts(es);
    assert |order| == |multiset(order)| == |multiset(es)| == |es|;
    forall e: Estimate ensures e in order <==> e in es {
      assert e in multiset(order) <==> e in multiset(es);
    }
    DistinctOrder(es, order);
  }

  lemma DistinctOrder(es: seq<Estimate>, order: seq<Estimate>)
    requires multiset(order) == multiset(es)
    requires forall i, j :: 0 <= i < j < |es| ==> es[i].harness != es[j].harness
    ensures forall i, j :: 0 <= i < j < |order| ==> order[i].harness != order[j].harness
  {
    forall i, j | 0 <= i < j < |order| ensures order[i].harness != order[j].harness {
      if order[i].harness == order[j].harness {
        assert order[i] in multiset(es) && order[j] in multiset(es);
        TwiceCounts(order, i, j);
        OnceCounts(es, order[i]);
        assert false;
      }
    }
  }

  lemma TwiceCounts(s: seq<Estimate>, i: nat, j: nat)
    requires i < j < |s|
    ensures s[i] == s[j] ==> multiset(s)[s[i]] >= 2
  {
    assert s == s[..j] + [s[j]] + s[j + 1..];
    assert s[i] in s[..j];
  }

  lemma {:induction false} OnceCounts(es: seq<Estimate>, e: Estimate)
    requires forall i, j :: 0 <= i < j < |es| ==> es[i].harness != es[j].harness
    ensures multiset(es)[e] <= 1
  {
    if es != [] {
      var last := |es| - 1;
      OnceCounts(es[..last], e);
      assert es == es[..last] + [es[last]];
      if es[last] == e {
        assert forall i :: 0 <= i < last ==> es[..last][i] != e;
      }
    }
  }

  /** The targets of shard `k`, in the inventory's order. */
  ghost function Select(inventory: Inventory, count: nat, targets: seq<Target>, k: nat): seq<Target>
    requires count > 0
  {
    if targets == [] then []
    else
      var last := targets[|targets| - 1];
      Select(inventory, count, targets[..|targets| - 1], k)
      + if InShard(inventory, count, last.harness, k) then [last] else []
  }

  ghost predicate IsPlan(inventory: Inventory, count: int, plan: seq<seq<Target>>) {
    Accepts(inventory, count) && |plan| == count
    && forall k :: 0 <= k < count ==> plan[k] == Select(inventory, count, inventory.targets, k)
  }

  /** Every harness belongs to exactly one shard. */
  lemma OneShard(inventory: Inventory, count: nat, h: Harness) returns (k: nat)
    requires count > 0 && h in Harnesses(inventory.targets)
    ensures k < count && InShard(inventory, count, h, k)
    ensures forall other :: InShard(inventory, count, h, other) ==> other == k
  {
    hide Order, Estimates, Seconds, Sort;
    OrderHolds(inventory);
    DealtIsGreedy(Sizes(Order(inventory)), count);
    var e := Estimate(h, Seconds(inventory, h));
    assert e in Order(inventory);
    var j :| 0 <= j < |Order(inventory)| && Order(inventory)[j] == e;
    assert DealtLeast(Sizes(Order(inventory)), Shards(inventory, count), count, j);
    k := Shards(inventory, count)[j];
  }

  ghost function Flat<T>(lists: seq<seq<T>>): seq<T> {
    if lists == [] then [] else Flat(lists[..|lists| - 1]) + lists[|lists| - 1]
  }

  /** Adding one element to one list adds it once to all of them together. */
  lemma {:induction false} FlatAdds<T>(t: T, k: nat, before: seq<seq<T>>, after: seq<seq<T>>)
    requires |before| == |after|
    requires forall i :: 0 <= i < |before| ==> after[i] == before[i] + if i == k then [t] else []
    ensures multiset(Flat(after)) == multiset(Flat(before)) + if k < |before| then multiset{t} else multiset{}
    decreases |before|
  {
    if before != [] {
      var last := |before| - 1;
      FlatAdds(t, k, before[..last], after[..last]);
      if last != k {
        assert after[last] == before[last] + [] == before[last];
      }
    }
  }

  ghost function PlanOver(inventory: Inventory, count: nat, targets: seq<Target>): (plan: seq<seq<Target>>)
    requires count > 0
    ensures |plan| == count
  {
    seq(count, k requires 0 <= k < count => Select(inventory, count, targets, k))
  }

  lemma {:induction false} PartitionOver(inventory: Inventory, count: nat, targets: seq<Target>)
    requires count > 0 && forall t :: t in targets ==> t.harness in Harnesses(inventory.targets)
    ensures multiset(Flat(PlanOver(inventory, count, targets))) == multiset(targets)
    decreases |targets|
  {
    if targets == [] {
      FlatOfNone(PlanOver(inventory, count, targets));
    } else {
      var last, init := targets[|targets| - 1], targets[..|targets| - 1];
      assert targets == init + [last];
      PartitionOver(inventory, count, init);
      var k := OneShard(inventory, count, last.harness);
      FlatAdds(last, k, PlanOver(inventory, count, init), PlanOver(inventory, count, targets));
    }
  }

  lemma {:induction false} FlatOfNone<T>(lists: seq<seq<T>>)
    requires forall i :: 0 <= i < |lists| ==> lists[i] == []
    ensures Flat(lists) == []
  {
    if lists != [] {
      FlatOfNone(lists[..|lists| - 1]);
    }
  }

  /** An accepted plan partitions the inventory: together its shards hold every target once. */
  lemma PlanPartitions(inventory: Inventory, count: int, plan: seq<seq<Target>>)
    requires IsPlan(inventory, count, plan)
    ensures multiset(Flat(plan)) == multiset(inventory.targets)
  {
    PartitionOver(inventory, count, inventory.targets);
    assert plan == PlanOver(inventory, count, inventory.targets);
  }

  lemma {:induction false} SelectHolds(inventory: Inventory, count: nat, targets: seq<Target>, k: nat)
    requires count > 0
    ensures forall t :: t in Select(inventory, count, targets, k) <==>
            t in targets && InShard(inventory, count, t.harness, k)
    decreases |targets|
  {
    if targets != [] {
      SelectHolds(inventory, count, targets[..|targets| - 1], k);
      assert targets == targets[..|targets| - 1] + [targets[|targets| - 1]];
    }
  }

  /** No harness is split: targets of one harness are in one shard. */
  lemma HarnessesStayWhole(inventory: Inventory, count: int, plan: seq<seq<Target>>, i: nat, j: nat, s: Target,
                  t: Target)
    requires IsPlan(inventory, count, plan) && i < |plan| && j < |plan|
    requires s in plan[i] && t in plan[j] && s.harness == t.harness
    ensures i == j
  {
    SelectHolds(inventory, count, inventory.targets, i);
    SelectHolds(inventory, count, inventory.targets, j);
    var k := OneShard(inventory, count, s.harness);
  }

  /** The estimated time of shard `k`. */
  ghost function ShardSeconds(inventory: Inventory, count: nat, k: nat): nat
    requires count > 0
  {
    Load(Sizes(Order(inventory)), Shards(inventory, count), k)
  }

  /** Every estimate is of some time. */
  lemma SizesPositive(inventory: Inventory)
    ensures forall j :: 0 <= j < |Order(inventory)| ==> Sizes(Order(inventory))[j] > 0
  {
    hide Order, Estimates, Sort;
    OrderHolds(inventory);
    forall j | 0 <= j < |Order(inventory)| ensures Sizes(Order(inventory))[j] > 0 {
      assert Order(inventory)[j] in Order(inventory);
    }
  }

  /** A harness dealt to a shard puts its targets there. */
  lemma DealtIsSelected(inventory: Inventory, count: nat, j: nat) returns (t: Target)
    requires count > 0 && j < |Order(inventory)|
    ensures t in Select(inventory, count, inventory.targets, Shards(inventory, count)[j])
  {
    hide Order, Shards, Estimates, Seconds, Sort;
    OrderHolds(inventory);
    var e := Order(inventory)[j];
    assert e in Order(inventory);
    t :| t in inventory.targets && t.harness == e.harness;
    SelectHolds(inventory, count, inventory.targets, Shards(inventory, count)[j]);
    assert InShard(inventory, count, t.harness, Shards(inventory, count)[j]);
  }

  /** No shard is empty. */
  lemma NoShardEmpty(inventory: Inventory, count: int, plan: seq<seq<Target>>, k: nat)
    requires IsPlan(inventory, count, plan) && k < |plan|
    ensures plan[k] != []
  {
    hide Order, Estimates, Seconds, Sort;
    var sizes, shards := Sizes(Order(inventory)), Shards(inventory, count);
    OrderHolds(inventory);
    DealtIsGreedy(sizes, count);
    SizesPositive(inventory);
    NoneEmpty(sizes, shards, count, k);
    var j := LastJob(sizes, shards, k);
    var t := DealtIsSelected(inventory, count, j);
  }

  lemma SizesDescend(inventory: Inventory)
    ensures Descending(Sizes(Order(inventory)))
  {
    OrderHolds(inventory);
    var order := Order(inventory);
    forall i, j | 0 <= i < j < |order| ensures order[i].seconds >= order[j].seconds {
      assert !Before(order[j], order[i]);
    }
  }

  /** Shard balance: a plan's longest shard is within 4/3 - 1/(3 count) of the longest shard of any other
      way to deal the harnesses, and within its share of the total and one harness of the least. */
  lemma PlanIsBalanced(inventory: Inventory, count: int, k: nat, other: seq<nat>, most: nat, largest: nat)
    requires Accepts(inventory, count) && k < count && Within(Sizes(Order(inventory)), other, count, most)
    requires forall j :: 0 <= j < |Order(inventory)| ==> Order(inventory)[j].seconds <= largest
    ensures 3 * count * ShardSeconds(inventory, count, k) <= (4 * count - 1) * most
    ensures count * ShardSeconds(inventory, count, k) <= Total(Sizes(Order(inventory))) + (count - 1) * largest
    ensures forall i :: 0 <= i < count ==>
            ShardSeconds(inventory, count, k) <= ShardSeconds(inventory, count, i) + largest
  {
    var sizes, shards := Sizes(Order(inventory)), Shards(inventory, count);
    DealtIsGreedy(sizes, count);
    SizesDescend(inventory);
    GrahamBound(sizes, shards, other, count, most, k);
    LoadNearAverage(sizes, shards, count, largest, k);
    forall i | 0 <= i < count ensures ShardSeconds(inventory, count, k) <= ShardSeconds(inventory, count, i) + largest {
      GapWithinLargest(sizes, shards, count, |sizes|, largest, k, i);
      assert sizes[..|sizes|] == sizes && shards[..|sizes|] == shards;
    }
  }

  // ----- The plan does not depend on the inventory's order -----

  ghost function Of(targets: seq<Target>, h: Harness): set<Target> {
    set t | t in targets && t.harness == h
  }

  lemma {:induction false} MembersAreCounted(targets: seq<Target>, h: Harness)
    requires forall i, j :: 0 <= i < j < |targets| ==> targets[i].id != targets[j].id
    ensures Members(targets, h) == |Of(targets, h)|
  {
    hide Of;
    if targets == [] {
      NoneOf(h);
    } else {
      var last, init := targets[|targets| - 1], targets[..|targets| - 1];
      MembersAreCounted(init, h);
      assert targets == init + [last];
      assert last !in init by {
        assert forall i :: 0 <= i < |init| ==> init[i].id != last.id;
      }
      OfGrows(init, last, h);
    }
  }

  lemma NoneOf(h: Harness)
    ensures Of([], h) == {}
  {
  }

  lemma OfGrows(targets: seq<Target>, t: Target, h: Harness)
    requires t !in targets
    ensures |Of(targets + [t], h)| == |Of(targets, h)| + if t.harness == h then 1 else 0
  {
    assert Of(targets + [t], h) == if t.harness == h then Of(targets, h) + {t} else Of(targets, h);
  }

  /** The same inventory, listed in another order. */
  ghost predicate Reordered(a: Inventory, b: Inventory) {
    && Loaded(a) && Loaded(b) && a.prFuzzSeconds == b.prFuzzSeconds
    && (forall t :: t in a.targets <==> t in b.targets)
    && forall id :: id in a.preparedTargets <==> id in b.preparedTargets
  }

  lemma SameSeconds(a: Inventory, b: Inventory, h: Harness)
    requires Reordered(a, b)
    ensures Seconds(a, h) == Seconds(b, h)
    ensures h in Harnesses(a.targets) <==> h in Harnesses(b.targets)
  {
    MembersAreCounted(a.targets, h);
    MembersAreCounted(b.targets, h);
    assert Of(a.targets, h) == Of(b.targets, h);
  }

  lemma SameEstimates(a: Inventory, b: Inventory)
    requires Reordered(a, b)
    ensures multiset(Estimates(a)) == multiset(Estimates(b))
  {
    hide Seconds, Estimates, Members;
    EstimatesHold(a);
    EstimatesHold(b);
    forall e: Estimate ensures multiset(Estimates(a))[e] == multiset(Estimates(b))[e] {
      SameSeconds(a, b, e.harness);
      OnceCounts(Estimates(a), e);
      OnceCounts(Estimates(b), e);
      assert e in Estimates(a) <==> e in Estimates(b);
      assert e in multiset(Estimates(a)) <==> e in Estimates(a);
      assert e in multiset(Estimates(b)) <==> e in Estimates(b);
    }
  }

  /** Listing the inventory in another order moves no harness to another shard, as long as different harnesses
      have different sort keys. */
  lemma ReorderingChangesNothing(a: Inventory, b: Inventory, count: nat, h: Harness, k: nat)
    requires Reordered(a, b) && count > 0 && DistinctKeys(Order(a))
    ensures InShard(a, count, h, k) <==> InShard(b, count, h, k)
    ensures Accepts(a, count) <==> Accepts(b, count)
  {
    OrderHolds(a);
    OrderHolds(b);
    SameEstimates(a, b);
    SortedUnique(Order(a), Order(b));
  }
}
