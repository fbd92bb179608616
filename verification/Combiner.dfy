/** Shard campaigns combined: evidence counts only when the shards of one plan each ran their own targets. */
module Combiner {
  import opened ShardPlan
  import opened Options

  /** What one shard's campaign recorded. `completions` are the verdicts of its targets' records. */
  datatype Record = Record(
    verdict: string,
    inventorySha256: string,
    number: int,
    count: int,
    planSha256: string,
    selection: seq<string>,
    selected: int,
    executed: int,
    completed: int,
    completions: map<string, string>,
    reported: bool,
    testedSha: Option<string>)

  datatype Reason = NoEvidence | DifferentCounts | NotEachOnce | NoPlan | BadShard | DifferentRevisions | NotEveryTarget

  datatype Verdict = Combined(selection: seq<string>) | Refused(reason: Reason)

  const COMPLETE := "complete"

  function Ids(targets: seq<Target>): (ids: seq<string>)
    ensures |ids| == |targets| && forall i :: 0 <= i < |ids| ==> ids[i] == targets[i].id
  {
    seq(|targets|, i requires 0 <= i < |targets| => targets[i].id)
  }

  /** The shard completed exactly its planned targets, at the tested inventory and plan. */
  predicate ShardComplete(record: Record, digest: string, planSha256: string, expected: seq<string>) {
    && record.verdict == COMPLETE
    && record.inventorySha256 == digest
    && record.planSha256 == planSha256
    && record.selection == expected
    && record.selected == record.executed == record.completed == |expected|
    && (forall i :: 0 <= i < |expected| ==>
       expected[i] in record.completions && record.completions[expected[i]] == COMPLETE)
    && record.reported
  }

  function InsertRecord(records: seq<Record>, r: Record): seq<Record> {
    if records == [] then [r]
    else if r.number < records[|records| - 1].number
    then InsertRecord(records[..|records| - 1], r) + [records[|records| - 1]]
    else records + [r]
  }

  function ByNumber(records: seq<Record>): seq<Record> {
    if records == [] then [] else InsertRecord(ByNumber(records[..|records| - 1]), records[|records| - 1])
  }

  lemma {:induction false} InsertAdds(records: seq<Record>, r: Record)
    ensures var all := InsertRecord(records, r);
      multiset(all) == multiset(records) + multiset{r} && forall x :: x in all ==> x == r || x in records
    decreases |records|
  {
    if records != [] {
      var last, init := records[|records| - 1], records[..|records| - 1];
      assert records == init + [last];
      InsertAdds(init, r);
    }
  }

  lemma {:induction false} InsertKeeps(records: seq<Record>, r: Record)
    requires forall i, j :: 0 <= i < j < |records| ==> records[i].number <= records[j].number
    ensures var all := InsertRecord(records, r);
      forall i, j :: 0 <= i < j < |all| ==> all[i].number <= all[j].number
    decreases |records|
  {
    if records != [] {
      var last, init := records[|records| - 1], records[..|records| - 1];
      assert records == init + [last];
      if r.number < last.number {
        InsertKeeps(init, r);
        InsertAdds(init, r);
        assert forall x :: x in init ==> x.number <= last.number;
      }
    }
  }

  lemma {:induction false} ByNumberSorts(records: seq<Record>)
    ensures multiset(ByNumber(records)) == multiset(records) && |ByNumber(records)| == |records|
    ensures forall i, j :: 0 <= i < j < |records| ==> ByNumber(records)[i].number <= ByNumber(records)[j].number
  {
    hide InsertRecord;
    if records != [] {
      var last := |records| - 1;
      ByNumberSorts(records[..last]);
      InsertKeeps(ByNumber(records[..last]), records[last]);
      InsertAdds(ByNumber(records[..last]), records[last]);
      assert records == records[..last] + [records[last]];
      assert |multiset(ByNumber(records))| == |multiset(records)|;
    }
  }

  ghost predicate SameCount(records: seq<Record>) {
    forall i :: 0 <= i < |records| ==> records[i].count == records[0].count
  }

  /** The shards are numbered from one, each once. */
  ghost predicate Numbered(shards: seq<Record>) {
    forall i :: 0 <= i < |shards| ==> shards[i].number == i + 1
  }

  ghost predicate AllComplete(shards: seq<Record>, digest: string, planSha256: string, plan: seq<seq<Target>>) {
    |shards| == |plan| && forall i :: 0 <= i < |shards| ==> ShardComplete(shards[i], digest, planSha256, Ids(plan[i]))
  }

  ghost predicate OneRevision(shards: seq<Record>, tested: Option<string>) {
    && (forall i :: 0 <= i < |shards| ==> shards[i].testedSha == shards[0].testedSha)
    && (tested.Some? && shards != [] ==> shards[0].testedSha == tested)
  }

  /** Everything combining demands of the evidence, the last check on the selection aside. */
  ghost predicate Evidence(
    inventory: Inventory, digest: string, planDigest: seq<seq<Target>> -> string, tested: Option<string>,
    records: seq<Record>, plan: seq<seq<Target>>)
  {
    && records != [] && SameCount(records) && records[0].count == |records|
    && Numbered(ByNumber(records))
    && IsPlan(inventory, |records|, plan)
    && AllComplete(ByNumber(records), digest, planDigest(plan), plan)
    && OneRevision(ByNumber(records), tested)
  }

  ghost predicate HasNumber(records: seq<Record>, n: int) {
    exists i :: 0 <= i < |records| && records[i].number == n
  }

  /** What each record must say, field by field, and that every shard has one. */
  ghost predicate RecordedBy(
    inventory: Inventory, digest: string, planSha256: string, tested: Option<string>, records: seq<Record>,
    plan: seq<seq<Target>>)
    requires |plan| == |records|
  {
    && (forall n :: 1 <= n <= |records| ==> HasNumber(records, n))
    && forall r :: r in records ==>
         && 1 <= r.number <= |records| && r.count == |records|
         && r.verdict == "complete" && r.reported
         && r.inventorySha256 == digest && r.planSha256 == planSha256
         && r.selection == Ids(plan[r.number - 1])
         && r.selected == |r.selection| && r.executed == |r.selection| && r.completed == |r.selection|
         && (forall id :: id in r.selection ==> id in r.completions && r.completions[id] == "complete")
         && r.testedSha == records[0].testedSha && (tested.Some? ==> r.testedSha == tested)
  }

  /** Numbers in order, each of one to their count among them, are those in turn. */
  lemma {:induction false} CountedOff(shards: seq<Record>)
    requires forall i, j :: 0 <= i < j < |shards| ==> shards[i].number <= shards[j].number
    requires forall n :: 1 <= n <= |shards| ==> HasNumber(shards, n)
    ensures Numbered(shards)
  {
    if shards != [] {
      var count := |shards|;
      var init := shards[..count - 1];
      assert HasNumber(shards, count);
      var top :| 0 <= top < count && shards[top].number == count;
      assert shards[count - 1].number >= count;
      forall n | 1 <= n <= |init| ensures HasNumber(init, n) {
        assert HasNumber(shards, n);
        var i :| 0 <= i < count && shards[i].number == n;
        assert init[i].number == n;
      }
      CountedOff(init);
      assert top < count - 1 ==> init[top].number == top + 1;
    }
  }

  lemma SameRecords(records: seq<Record>)
    ensures forall r :: r in ByNumber(records) <==> r in records
    ensures |ByNumber(records)| == |records|
  {
    ByNumberSorts(records);
    hide ByNumber;
    forall r ensures r in ByNumber(records) <==> r in records {
      assert r in multiset(ByNumber(records)) <==> r in multiset(records);
    }
  }

  lemma FieldsOfShard(r: Record, digest: string, planSha256: string, expected: seq<string>)
    ensures ShardComplete(r, digest, planSha256, expected) <==>
      && r.verdict == "complete" && r.reported && r.inventorySha256 == digest && r.planSha256 == planSha256
      && r.selection == expected
      && r.selected == |r.selection| && r.executed == |r.selection| && r.completed == |r.selection|
      && (forall id :: id in r.selection ==> id in r.completions && r.completions[id] == "complete")
  {
    if r.selection == expected {
      assert forall i :: 0 <= i < |expected| ==> expected[i] in expected;
    }
  }

  /** The evidence is what its records say, each by itself. */
  lemma EvidenceIsRecorded(
    inventory: Inventory, digest: string, planDigest: seq<seq<Target>> -> string, tested: Option<string>,
    records: seq<Record>, plan: seq<seq<Target>>)
    ensures Evidence(inventory, digest, planDigest, tested, records, plan) <==>
      && records != [] && IsPlan(inventory, |records|, plan)
      && |plan| == |records| && RecordedBy(inventory, digest, planDigest(plan), tested, records, plan)
  {
    var shards := ByNumber(records);
    SameRecords(records);
    ByNumberSorts(records);
    hide ByNumber, IsPlan, ShardComplete;
    if records != [] && IsPlan(inventory, |records|, plan) {
      OnePlan(inventory, digest, planDigest, tested, records, plan);
      forall r, expected ensures ShardComplete(r, digest, planDigest(plan), expected) ==> r.selection == expected {
        FieldsOfShard(r, digest, planDigest(plan), expected);
      }
      if Evidence(inventory, digest, planDigest, tested, records, plan) {
        EvidenceToFields(inventory, digest, planDigest(plan), tested, records, plan, shards);
      }
      if RecordedBy(inventory, digest, planDigest(plan), tested, records, plan) {
        FieldsToEvidence(inventory, digest, planDigest(plan), tested, records, plan, shards);
      }
    }
  }

  lemma EvidenceToFields(
    inventory: Inventory, digest: string, planSha256: string, tested: Option<string>, records: seq<Record>,
    plan: seq<seq<Target>>, shards: seq<Record>)
    requires |plan| == |records| == |shards| && forall r :: r in shards <==> r in records
    requires records != [] && SameCount(records) && records[0].count == |records| && Numbered(shards)
    requires AllComplete(shards, digest, planSha256, plan) && OneRevision(shards, tested)
    ensures RecordedBy(inventory, digest, planSha256, tested, records, plan)
  {
    hide ShardComplete;
    forall n | 1 <= n <= |records| ensures HasNumber(records, n) {
      assert shards[n - 1] in shards;
      var i :| 0 <= i < |records| && records[i] == shards[n - 1];
    }
    assert records[0] in records;
    forall i | 0 <= i < |shards| ensures shards[i].testedSha == records[0].testedSha {
      var j :| 0 <= j < |shards| && shards[j] == records[0];
    }
    forall r | r in records
      ensures 1 <= r.number <= |records| && r.count == |records|
      ensures ShardComplete(r, digest, planSha256, Ids(plan[r.number - 1]))
      ensures r.testedSha == records[0].testedSha && (tested.Some? ==> r.testedSha == tested)
    {
      var i :| 0 <= i < |shards| && shards[i] == r;
      assert shards[i].number == i + 1;
    }
    forall r | r in records {
      FieldsOfShard(r, digest, planSha256, Ids(plan[r.number - 1]));
    }
  }

  lemma FieldsToEvidence(
    inventory: Inventory, digest: string, planSha256: string, tested: Option<string>, records: seq<Record>,
    plan: seq<seq<Target>>, shards: seq<Record>)
    requires |plan| == |records| == |shards| && forall r :: r in shards <==> r in records
    requires forall i, j :: 0 <= i < j < |shards| ==> shards[i].number <= shards[j].number
    requires records != [] && RecordedBy(inventory, digest, planSha256, tested, records, plan)
    ensures SameCount(records) && records[0].count == |records| && Numbered(shards)
    ensures AllComplete(shards, digest, planSha256, plan) && OneRevision(shards, tested)
  {
    hide ShardComplete;
    forall n | 1 <= n <= |shards| ensures HasNumber(shards, n) {
      assert HasNumber(records, n);
      var i :| 0 <= i < |records| && records[i].number == n;
      assert records[i] in shards;
    }
    CountedOff(shards);
    forall i | 0 <= i < |shards| ensures ShardComplete(shards[i], digest, planSha256, Ids(plan[i])) {
      assert shards[i] in shards && shards[i].number == i + 1;
      FieldsOfShard(shards[i], digest, planSha256, Ids(plan[i]));
    }
    assert shards[0] in shards;
  }

  /** The ids of planned shards together are those of the shards' targets together. */
  lemma {:induction false} FlatIds(plan: seq<seq<Target>>, selections: seq<seq<string>>)
    requires |plan| == |selections| && forall i :: 0 <= i < |plan| ==> selections[i] == Ids(plan[i])
    ensures Flat(selections) == Ids(Flat(plan))
  {
    if plan != [] {
      FlatIds(plan[..|plan| - 1], selections[..|plan| - 1]);
    }
  }

  lemma {:induction false} IdsOfSameTargets(a: seq<Target>, b: seq<Target>)
    requires multiset(a) == multiset(b)
    ensures multiset(Ids(a)) == multiset(Ids(b))
    decreases |a|
  {
    if a == [] {
      assert |multiset(b)| == 0;
      assert b == [];
    } else {
      var last := |a| - 1;
      var k := Find(b, a[last]);
      var a', b' := a[..last] + a[last + 1..], b[..k] + b[k + 1..];
      Without(a, last);
      Without(b, k);
      IdsOfSameTargets(a', b');
    }
  }

  lemma Find(b: seq<Target>, t: Target) returns (k: nat)
    requires t in multiset(b)
    ensures k < |b| && b[k] == t
  {
    k :| 0 <= k < |b| && b[k] == t;
  }

  /** Taking one target out takes its id out. */
  lemma Without(b: seq<Target>, k: nat)
    requires k < |b|
    ensures multiset(b[..k] + b[k + 1..]) == multiset(b) - multiset{b[k]}
    ensures multiset(Ids(b)) == multiset(Ids(b[..k] + b[k + 1..])) + multiset{b[k].id}
  {
    Removed(b, k);
    Removed(Ids(b), k);
    assert Ids(b[..k] + b[k + 1..]) == Ids(b)[..k] + Ids(b)[k + 1..];
  }

  lemma Removed<T>(s: seq<T>, k: nat)
    requires k < |s|
    ensures multiset(s) == multiset(s[..k] + s[k + 1..]) + multiset{s[k]}
  {
    assert s == s[..k] + [s[k]] + s[k + 1..];
  }

  /** Shards that each completed their planned targets selected every registered target once. */
  lemma PlannedIsEverything(inventory: Inventory, count: int, plan: seq<seq<Target>>, selections: seq<seq<string>>)
    requires IsPlan(inventory, count, plan) && |selections| == |plan|
    requires forall i :: 0 <= i < |plan| ==> selections[i] == Ids(plan[i])
    ensures multiset(Flat(selections)) == multiset(Ids(inventory.targets))
  {
    PlanPartitions(inventory, count, plan);
    FlatIds(plan, selections);
    IdsOfSameTargets(Flat(plan), inventory.targets);
  }

  method CheckCounts(records: seq<Record>) returns (same: bool)
    ensures same == SameCount(records)
  {
    for i := 0 to |records|
      invariant forall j :: 0 <= j < i ==> records[j].count == records[0].count
    {
      if records[i].count != records[0].count {
        return false;
      }
    }
    same := true;
  }

  method CheckNumbers(shards: seq<Record>) returns (numbered: bool)
    ensures numbered == Numbered(shards)
  {
    for i := 0 to |shards|
      invariant forall j :: 0 <= j < i ==> shards[j].number == j + 1
    {
      if shards[i].number != i + 1 {
        return false;
      }
    }
    numbered := true;
  }

  method CheckShards(shards: seq<Record>, digest: string, planSha256: string,
                  plan: seq<seq<Target>>) returns (complete: bool)
    requires |shards| == |plan|
    ensures complete == AllComplete(shards, digest, planSha256, plan)
  {
    for i := 0 to |shards|
      invariant forall j :: 0 <= j < i ==> ShardComplete(shards[j], digest, planSha256, Ids(plan[j]))
    {
      if !ShardComplete(shards[i], digest, planSha256, Ids(plan[i])) {
        return false;
      }
    }
    complete := true;
  }

  method CheckRevisions(shards: seq<Record>, tested: Option<string>) returns (one: bool)
    ensures one == OneRevision(shards, tested)
  {
    for i := 0 to |shards|
      invariant forall j :: 0 <= j < i ==> shards[j].testedSha == shards[0].testedSha
    {
      if shards[i].testedSha != shards[0].testedSha {
        return false;
      }
    }
    one := tested.None? || shards == [] || shards[0].testedSha == tested;
  }

  method Selected(shards: seq<Record>) returns (all: seq<string>)
    ensures all == Flat(Selections(shards))
  {
    all := [];
    for i := 0 to |shards|
      invariant all == Flat(Selections(shards)[..i])
    {
      assert Selections(shards)[..i + 1][..i] == Selections(shards)[..i];
      all := all + shards[i].selection;
    }
    assert Selections(shards)[..|shards|] == Selections(shards);
  }

  ghost function Selections(shards: seq<Record>): seq<seq<string>> {
    seq(|shards|, i requires 0 <= i < |shards| => shards[i].selection)
  }

  /** There is one plan of an inventory and a count. */
  lemma PlansAgree(inventory: Inventory, count: int, a: seq<seq<Target>>, b: seq<seq<Target>>)
    requires IsPlan(inventory, count, a) && IsPlan(inventory, count, b)
    ensures a == b
  {
  }

  /** Prove that one run's shards covered the whole inventory once. `planFor` is the planner: no plan for
      a count it refuses. The last check, that together the shards selected every registered target once,
      cannot fail: evidence is refused earlier or not at all. */
  method Combine(
    inventory: Inventory, digest: string, planFor: int -> Option<seq<seq<Target>>>,
    planDigest: seq<seq<Target>> -> string, tested: Option<string>, records: seq<Record>)
    returns (verdict: Verdict)
    requires forall count :: planFor(count).Some? ==> IsPlan(inventory, count, planFor(count).value)
    requires forall count :: planFor(count).None? ==> !Accepts(inventory, count)
    ensures verdict != Refused(NotEveryTarget)
    ensures verdict.Combined? <==> exists plan :: Evidence(inventory, digest, planDigest, tested, records, plan)
    ensures verdict.Combined? ==> multiset(verdict.selection) == multiset(Ids(inventory.targets))
  {
    hide SameCount, Numbered, OneRevision, ShardComplete, IsPlan, Accepts;
    if records == [] {
      return Refused(NoEvidence);
    }
    var same := CheckCounts(records);
    if !same {
      return Refused(DifferentCounts);
    }
    var count, shards := records[0].count, ByNumber(records);
    ByNumberSorts(records);
    var numbered := CheckNumbers(shards);
    if count != |shards| || !numbered {
      return Refused(NotEachOnce);
    }
    var planned := planFor(count);
    if planned.None? {
      NoPlanAtAll(inventory, count);
      return Refused(NoPlan);
    }
    var plan := planned.value;
    OnePlan(inventory, digest, planDigest, tested, records, plan);
    var complete := CheckShards(shards, digest, planDigest(plan), plan);
    if !complete {
      return Refused(BadShard);
    }
    var one := CheckRevisions(shards, tested);
    if !one {
      return Refused(DifferentRevisions);
    }
    var all := Selected(shards);
    CompleteIsEverything(inventory, count, shards, digest, planDigest(plan), plan);
    if multiset(all) != multiset(Ids(inventory.targets)) {
      return Refused(NotEveryTarget);
    }
    assert Evidence(inventory, digest, planDigest, tested, records, plan);
    verdict := Combined(all);
  }

  lemma NoPlanAtAll(inventory: Inventory, count: int)
    requires !Accepts(inventory, count)
    ensures forall plan :: !IsPlan(inventory, count, plan)
  {
  }

  lemma OnePlan(inventory: Inventory, digest: string, planDigest: seq<seq<Target>> -> string, tested: Option<string>,
                records: seq<Record>, plan: seq<seq<Target>>)
    requires IsPlan(inventory, |records|, plan)
    ensures |plan| == |records|
    ensures forall other :: Evidence(inventory, digest, planDigest, tested, records, other) ==> other == plan
  {
    forall other | Evidence(inventory, digest, planDigest, tested, records, other) ensures other == plan {
      PlansAgree(inventory, |records|, other, plan);
    }
  }

  lemma CompleteIsEverything(inventory: Inventory, count: int, shards: seq<Record>, digest: string,
                  planSha256: string, plan: seq<seq<Target>>)
    requires IsPlan(inventory, count, plan) && AllComplete(shards, digest, planSha256, plan)
    ensures multiset(Flat(Selections(shards))) == multiset(Ids(inventory.targets))
  {
    PlannedIsEverything(inventory, count, plan, Selections(shards));
  }
}
