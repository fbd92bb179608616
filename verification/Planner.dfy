/** How a shard plan is computed: estimates gathered in a dictionary, and harnesses dealt in one pass. */
module Planner {
  import opened LoadBalance
  import opened ShardPlan

  function MembersIn(members: map<Harness, nat>, h: Harness): nat {
    if h in members then members[h] else 0
  }

  /** What is gathered of the targets. */
  ghost predicate Gathered(targets: seq<Target>, order: seq<Harness>, members: map<Harness, nat>) {
    && order == Harnesses(targets)
    && (forall h :: h in members <==> h in order)
    && forall h :: Members(targets, h) == MembersIn(members, h)
  }

  lemma GatherNext(targets: seq<Target>, last: Target, order: seq<Harness>, members: map<Harness, nat>)
    requires Gathered(targets, order, members)
    ensures var h := last.harness;
      Gathered(targets + [last], if h in members then order else order + [h],
               members[h := MembersIn(members, h) + 1])
  {
    var h, more := last.harness, targets + [last];
    var members' := members[h := MembersIn(members, h) + 1];
    assert more[..|targets|] == targets;
    assert Harnesses(more) == if h in members then order else order + [h];
    hide Harnesses;
    forall g ensures Members(more, g) == MembersIn(members', g) {
      assert Members(targets, g) == MembersIn(members, g);
    }
  }

  /** The harnesses in the order their first targets stand, and how many targets each has. */
  method GatherMembers(targets: seq<Target>) returns (order: seq<Harness>, members: map<Harness, nat>)
    ensures order == Harnesses(targets)
    ensures forall h :: h in order ==> h in members && members[h] == Members(targets, h)
  {
    hide Gathered, Harnesses, Members;
    members, order := map[], [];
    NothingGathered();
    assert targets[..0] == [];
    for n := 0 to |targets|
      invariant Gathered(targets[..n], order, members)
    {
      var h := targets[n].harness;
      GatherNext(targets[..n], targets[n], order, members);
      assert targets[..n] + [targets[n]] == targets[..n + 1];
      if h !in members {
        order := order + [h];
        members := members[h := 1];
      } else {
        members := members[h := members[h] + 1];
      }
    }
    assert targets[..|targets|] == targets;
    GatheredMeans(targets, order, members);
  }

  lemma NothingGathered()
    ensures Gathered([], [], map[])
  {
  }

  lemma GatheredMeans(targets: seq<Target>, order: seq<Harness>, members: map<Harness, nat>)
    requires Gathered(targets, order, members)
    ensures order == Harnesses(targets)
    ensures forall h :: h in order ==> h in members && members[h] == Members(targets, h)
  {
    hide Harnesses, Members;
  }

  method PreparedHarnesses(inventory: Inventory) returns (prepared: set<Harness>)
    ensures forall h :: h in prepared <==> Prepared(inventory, h)
  {
    var targets := inventory.targets;
    prepared := {};
    for n := 0 to |targets|
      invariant forall h :: h in prepared <==>
                exists t :: t in targets[..n] && t.harness == h && t.id in inventory.preparedTargets
    {
      assert targets[..n + 1] == targets[..n] + [targets[n]];
      if targets[n].id in inventory.preparedTargets {
        prepared := prepared + {targets[n].harness};
      }
    }
    assert targets[..|targets|] == targets;
  }

  /** The loop over the gathered harnesses computes the specified estimates, in their order. */
  method HarnessEstimates(inventory: Inventory) returns (estimates: seq<Estimate>)
    ensures estimates == Estimates(inventory)
  {
    hide Prepared, Members, Harnesses;
    var order, members := GatherMembers(inventory.targets);
    var prepared := PreparedHarnesses(inventory);
    estimates := [];
    for i := 0 to |order|
      invariant |estimates| == i && forall j :: 0 <= j < i ==> estimates[j] == Estimates(inventory)[j]
    {
      var h := order[i];
      var build := if h in prepared then PREPARED_BUILD_SECONDS else HARNESS_BUILD_SECONDS;
      var campaigns := members[h] * (inventory.prFuzzSeconds + CAMPAIGN_OVERHEAD_SECONDS);
      estimates := estimates + [Estimate(h, build + campaigns)];
    }
  }

  /** The first index of a least load. */
  method IndexOfLeast(loads: seq<nat>) returns (k: nat)
    requires loads != []
    ensures k < |loads|
    ensures forall i :: 0 <= i < |loads| ==> loads[k] <= loads[i]
    ensures forall i :: 0 <= i < k ==> loads[k] < loads[i]
  {
    k := 0;
    for n := 1 to |loads|
      invariant k < n
      invariant forall i :: 0 <= i < n ==> loads[k] <= loads[i]
      invariant forall i :: 0 <= i < k ==> loads[k] < loads[i]
    {
      if loads[n] < loads[k] {
        k := n;
      }
    }
  }

  ghost predicate Carry(loads: seq<nat>, sizes: seq<nat>, assign: seq<nat>) {
    |sizes| == |assign| && forall i :: 0 <= i < |loads| ==> loads[i] == Load(sizes, assign, i)
  }

  lemma LeastIsLightest(loads: seq<nat>, sizes: seq<nat>, assign: seq<nat>, k: nat)
    requires Carry(loads, sizes, assign) && k < |loads|
    requires forall i :: 0 <= i < |loads| ==> loads[k] <= loads[i]
    requires forall i :: 0 <= i < k ==> loads[k] < loads[i]
    ensures k == Lightest(sizes, assign, |loads|)
  {
    var l := Lightest(sizes, assign, |loads|);
    assert loads[l] == Load(sizes, assign, l) && loads[k] == Load(sizes, assign, k);
  }

  /** The harnesses of each shard, dealt in order. */
  ghost predicate Holds(held: seq<set<Harness>>, order: seq<Estimate>, assign: seq<nat>) {
    |order| == |assign|
    && forall k, h :: 0 <= k < |held| ==>
       (h in held[k] <==> exists j :: 0 <= j < |order| && order[j].harness == h && assign[j] == k)
  }

  lemma HoldsMore(held: seq<set<Harness>>, order: seq<Estimate>, assign: seq<nat>, e: Estimate, k: nat)
    requires Holds(held, order, assign) && k < |held|
    ensures Holds(held[k := held[k] + {e.harness}], order + [e], assign + [k])
  {
    var held', order', assign' := held[k := held[k] + {e.harness}], order + [e], assign + [k];
    forall i, h | 0 <= i < |held|
      ensures h in held'[i] <==> exists j :: 0 <= j < |order'| && order'[j].harness == h && assign'[j] == i
    {
      if h in held[i] {
        var j :| 0 <= j < |order| && order[j].harness == h && assign[j] == i;
        assert order'[j].harness == h && assign'[j] == i;
      } else if i == k && h == e.harness {
        assert order'[|order|].harness == h && assign'[|order|] == i;
      } else {
        forall j | 0 <= j < |order'| && order'[j].harness == h ensures assign'[j] != i {
          if j < |order| {
            assert order[j].harness == h && assign[j] == assign'[j];
          }
        }
      }
    }
  }

  /** What the loads and the shards are once the first `n` harnesses are dealt. */
  ghost predicate DealtSoFar(order: seq<Estimate>, n: nat, count: nat, loads: seq<nat>, held: seq<set<Harness>>)
    requires n <= |order| && count > 0
  {
    var sizes := Sizes(order[..n]);
    && |loads| == |held| == count
    && Carry(loads, sizes, Dealt(sizes, count)) && Holds(held, order[..n], Dealt(sizes, count))
  }

  lemma OneMoreDealt(order: seq<Estimate>, n: nat, count: nat)
    requires n < |order| && count > 0
    ensures order[..n + 1] == order[..n] + [order[n]]
    ensures var before, after := Sizes(order[..n]), Sizes(order[..n + 1]);
      && after == before + [order[n].seconds]
      && Dealt(after, count) == Dealt(before, count) + [Lightest(before, Dealt(before, count), count)]
  {
    var before, after := Sizes(order[..n]), Sizes(order[..n + 1]);
    assert after[..n] == before;
  }

  lemma CarryMore(loads: seq<nat>, sizes: seq<nat>, assign: seq<nat>, size: nat, k: nat)
    requires Carry(loads, sizes, assign) && k < |loads|
    ensures Carry(loads[k := loads[k] + size], sizes + [size], assign + [k])
  {
    var last := |sizes|;
    assert (sizes + [size])[..last] == sizes && (assign + [k])[..last] == assign;
  }

  lemma DealNext(order: seq<Estimate>, n: nat, count: nat, loads: seq<nat>, held: seq<set<Harness>>, k: nat)
    requires n < |order| && count > 0 && DealtSoFar(order, n, count, loads, held) && k < count
    requires forall i :: 0 <= i < |loads| ==> loads[k] <= loads[i]
    requires forall i :: 0 <= i < k ==> loads[k] < loads[i]
    ensures DealtSoFar(order, n + 1, count, loads[k := loads[k] + order[n].seconds],
                       held[k := held[k] + {order[n].harness}])
  {
    var sizes := Sizes(order[..n]);
    var assign := Dealt(sizes, count);
    LeastIsLightest(loads, sizes, assign, k);
    hide Carry, Holds, Dealt, Sizes, Lightest;
    OneMoreDealt(order, n, count);
    CarryMore(loads, sizes, assign, order[n].seconds, k);
    HoldsMore(held, order[..n], assign, order[n], k);
  }

  method Deal(order: seq<Estimate>, count: nat) returns (held: seq<set<Harness>>)
    requires count > 0
    ensures |held| == count && Holds(held, order, Dealt(Sizes(order), count))
  {
    var loads: seq<nat> := seq(count, _ => 0);
    held := seq(count, _ => {});
    assert DealtSoFar(order, 0, count, loads, held);
    for n := 0 to |order|
      invariant |loads| == |held| == count && DealtSoFar(order, n, count, loads, held)
    {
      hide DealtSoFar;
      var lightest := IndexOfLeast(loads);
      DealNext(order, n, count, loads, held, lightest);
      loads := loads[lightest := loads[lightest] + order[n].seconds];
      held := held[lightest := held[lightest] + {order[n].harness}];
    }
    assert order[..|order|] == order;
  }

  lemma HeldIsShard(inventory: Inventory, count: nat, held: seq<set<Harness>>, k: nat)
    requires 0 < count == |held| && k < count
    requires Holds(held, Order(inventory), Dealt(Sizes(Order(inventory)), count))
    ensures forall h :: h in held[k] <==> InShard(inventory, count, h, k)
  {
    hide Order;
    assert Dealt(Sizes(Order(inventory)), count) == Shards(inventory, count);
  }

  method SelectTargets(inventory: Inventory, count: nat, held: set<Harness>, k: nat) returns (selected: seq<Target>)
    requires count > 0 && forall h :: h in held <==> InShard(inventory, count, h, k)
    ensures selected == Select(inventory, count, inventory.targets, k)
  {
    var targets := inventory.targets;
    selected := [];
    for n := 0 to |targets|
      invariant selected == Select(inventory, count, targets[..n], k)
    {
      assert targets[..n + 1][..n] == targets[..n];
      if targets[n].harness in held {
        selected := selected + [targets[n]];
      }
    }
    assert targets[..|targets|] == targets;
  }

  /** The plan, for every count from one to the number of harnesses; any other count is refused. */
  method MakePlan(inventory: Inventory, count: int) returns (plan: Result<seq<seq<Target>>>)
    ensures plan.Ok? <==> 1 <= count <= |set t | t in inventory.targets :: t.harness|
    ensures plan.Ok? <==> Accepts(inventory, count)
    ensures plan.Ok? ==> IsPlan(inventory, count, plan.value)
  {
    HarnessesCounted(inventory.targets);
    if count <= 0 {
      return Err;
    }
    var estimates := HarnessEstimates(inventory);
    if count > |estimates| {
      return Err;
    }
    var held := Deal(Sort(estimates), count);
    var shards: seq<seq<Target>> := [];
    for k := 0 to count
      invariant |shards| == k
      invariant forall i :: 0 <= i < k ==> shards[i] == Select(inventory, count, inventory.targets, i)
    {
      HeldIsShard(inventory, count, held, k);
      var selected := SelectTargets(inventory, count, held[k], k);
      shards := shards + [selected];
    }
    plan := Ok(shards);
  }
}
