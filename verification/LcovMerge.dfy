/**
 The merged report: what it prints of the summed counters, and why merging merged reports changes nothing.
 */
module LcovMerge {
  import opened Lcov
  import opened SortKeys
  import opened Options

  // ----- Order -----

  /** What a list is sorted by: a number, then texts. */
  datatype Rank = Rank(number: int, texts: seq<string>)

  predicate RankLess(a: Rank, b: Rank) {
    a.number < b.number || (a.number == b.number && KeyLess(a.texts, b.texts))
  }

  lemma RanksAreOrdered()
    ensures StrictTotal(RankLess)
  {
    KeysAreOrdered();
    hide Lex, KeyLess;
  }

  lemma {:induction false} LeastExists(ranks: set<Rank>) returns (least: Rank)
    requires ranks != {}
    ensures least in ranks && forall q :: q in ranks ==> q == least || RankLess(least, q)
    decreases |ranks|
  {
    RanksAreOrdered();
    hide RankLess;
    var r :| r in ranks;
    if ranks == {r} {
      least := r;
    } else {
      assert ranks - {r} != {};
      var rest := LeastExists(ranks - {r});
      least := if RankLess(r, rest) then r else rest;
      forall q | q in ranks && q != least ensures RankLess(least, q) {
        assert q != r ==> q in ranks - {r};
      }
    }
  }

  function Least(ranks: set<Rank>): (least: Rank)
    requires ranks != {}
    ensures least in ranks && forall q :: q in ranks ==> q == least || RankLess(least, q)
  {
    assert exists r :: r in ranks && forall q :: q in ranks ==> q == r || RankLess(r, q) by {
      var r := LeastExists(ranks);
    }
    RanksAreOrdered();
    var r :| r in ranks && forall q :: q in ranks ==> q == r || RankLess(r, q);
    r
  }

  /** The elements in ascending order. */
  function InOrder(ranks: set<Rank>): (sorted: seq<Rank>)
    ensures forall r :: r in sorted <==> r in ranks
    ensures forall i, j :: 0 <= i < j < |sorted| ==> RankLess(sorted[i], sorted[j])
    decreases |ranks|
  {
    if ranks == {} then [] else [Least(ranks)] + InOrder(ranks - {Least(ranks)})
  }

  ghost predicate Distinct<T(!new)>(s: seq<T>) {
    forall i, j :: 0 <= i < j < |s| ==> s[i] != s[j]
  }

  function Text(r: Rank, i: nat): string {
    if i < |r.texts| then r.texts[i] else ""
  }

  // ----- What is printed -----

  function HitsKeysOf(functions: set<Site>): set<Key> {
    set site | site in functions :: HitsKey(site.source, site.name)
  }

  /** The counters with a count for every function, zero where none was read. */
  function Complete(c: Counters): Counters {
    c.(counts := (map k | k in HitsKeysOf(c.functions.Keys) :: Some(0)) + c.counts)
  }

  function FunctionRanks(c: Counters, s: string): set<Rank> {
    set site | site in c.functions && site.source == s :: Rank(c.functions[site].start, [site.name])
  }

  function LineRanks(c: Counters, s: string): set<Rank> {
    set k | k in c.counts && k.LineKey? && k.source == s :: Rank(k.number, [])
  }

  function BranchRanks(c: Counters, s: string): set<Rank> {
    set k | k in c.counts && k.BranchKey? && k.source == s :: Rank(k.number, [k.block, k.branch])
  }

  function SourceRanks(c: Counters): set<Rank> {
    set s | s in c.sources :: Rank(0, [s])
  }

  function HitsKeys(c: Counters, s: string): seq<Key> {
    var ranks := InOrder(FunctionRanks(c, s));
    seq(|ranks|, i requires 0 <= i < |ranks| => HitsKey(s, Text(ranks[i], 0)))
  }

  function LineKeys(c: Counters, s: string): seq<Key> {
    var ranks := InOrder(LineRanks(c, s));
    seq(|ranks|, i requires 0 <= i < |ranks| => LineKey(s, ranks[i].number))
  }

  function BranchKeys(c: Counters, s: string): seq<Key> {
    var ranks := InOrder(BranchRanks(c, s));
    seq(|ranks|, i requires 0 <= i < |ranks| => BranchKey(s, ranks[i].number, Text(ranks[i], 0), Text(ranks[i], 1)))
  }

  function Sources(c: Counters): seq<string> {
    var ranks := InOrder(SourceRanks(c));
    seq(|ranks|, i requires 0 <= i < |ranks| => Text(ranks[i], 0))
  }

  lemma RanksDiffer(a: Rank, b: Rank)
    requires RankLess(a, b)
    ensures a != b
  {
    RanksAreOrdered();
  }

  lemma HitsKeysList(c: Counters, s: string)
    ensures Distinct(HitsKeys(c, s))
    ensures forall k :: k in HitsKeys(c, s) <==> k.HitsKey? && k.source == s && Site(s, k.name) in c.functions
  {
    hide InOrder, RankLess;
    var ranks, keys := InOrder(FunctionRanks(c, s)), HitsKeys(c, s);
    forall i | 0 <= i < |ranks|
      ensures Site(s, Text(ranks[i], 0)) in c.functions
      ensures ranks[i] == Rank(c.functions[Site(s, Text(ranks[i], 0))].start, [Text(ranks[i], 0)])
    {
      assert ranks[i] in FunctionRanks(c, s);
    }
    forall i, j | 0 <= i < j < |keys| ensures keys[i] != keys[j] {
      RanksDiffer(ranks[i], ranks[j]);
    }
    forall k: Key | k.HitsKey? && k.source == s && Site(s, k.name) in c.functions ensures k in keys {
      var r := Rank(c.functions[Site(s, k.name)].start, [k.name]);
      assert r in FunctionRanks(c, s);
      var i :| 0 <= i < |ranks| && ranks[i] == r;
      assert keys[i] == k;
    }
  }

  lemma LineKeysList(c: Counters, s: string)
    ensures Distinct(LineKeys(c, s))
    ensures forall k :: k in LineKeys(c, s) <==> k.LineKey? && k.source == s && k in c.counts
  {
    hide InOrder, RankLess;
    var ranks, keys := InOrder(LineRanks(c, s)), LineKeys(c, s);
    forall i | 0 <= i < |ranks| ensures ranks[i] == Rank(ranks[i].number, []) && keys[i] in c.counts {
      assert ranks[i] in LineRanks(c, s);
    }
    forall i, j | 0 <= i < j < |keys| ensures keys[i] != keys[j] {
      RanksDiffer(ranks[i], ranks[j]);
    }
    forall k: Key | k.LineKey? && k.source == s && k in c.counts ensures k in keys {
      assert Rank(k.number, []) in LineRanks(c, s);
      var i :| 0 <= i < |ranks| && ranks[i] == Rank(k.number, []);
      assert keys[i] == k;
    }
  }

  lemma BranchKeysList(c: Counters, s: string)
    ensures Distinct(BranchKeys(c, s))
    ensures forall k :: k in BranchKeys(c, s) <==> k.BranchKey? && k.source == s && k in c.counts
  {
    hide InOrder, RankLess;
    var ranks, keys := InOrder(BranchRanks(c, s)), BranchKeys(c, s);
    forall i | 0 <= i < |ranks|
      ensures ranks[i] == Rank(ranks[i].number, [Text(ranks[i], 0), Text(ranks[i], 1)]) && keys[i] in c.counts
    {
      assert ranks[i] in BranchRanks(c, s);
    }
    forall i, j | 0 <= i < j < |keys| ensures keys[i] != keys[j] {
      RanksDiffer(ranks[i], ranks[j]);
    }
    forall k: Key | k.BranchKey? && k.source == s && k in c.counts ensures k in keys {
      var r := Rank(k.number, [k.block, k.branch]);
      assert r in BranchRanks(c, s);
      var i :| 0 <= i < |ranks| && ranks[i] == r;
      assert keys[i] == k;
    }
  }

  lemma SourcesList(c: Counters)
    ensures Distinct(Sources(c))
    ensures forall s :: s in Sources(c) <==> s in c.sources
  {
    hide InOrder, RankLess;
    var ranks, names := InOrder(SourceRanks(c)), Sources(c);
    forall i | 0 <= i < |ranks| ensures ranks[i] == Rank(0, [names[i]]) && names[i] in c.sources {
      assert ranks[i] in SourceRanks(c);
    }
    forall i, j | 0 <= i < j < |names| ensures names[i] != names[j] {
      RanksDiffer(ranks[i], ranks[j]);
    }
    forall s | s in c.sources ensures s in names {
      assert Rank(0, [s]) in SourceRanks(c);
      var i :| 0 <= i < |ranks| && ranks[i] == Rank(0, [s]);
      assert names[i] == s;
    }
  }

  // ----- Printing -----

  function CountLine(k: Key, count: Option<int>): Line {
    match k
    case HitsKey(_, name) => Fnda(if count.Some? then count.value else 0, name)
    case LineKey(_, number) => Da(number, if count.Some? then count.value else 0)
    case BranchKey(_, number, block, branch) => Brda(number, block, branch, count)
  }

  function CountLines(counts: map<Key, Option<int>>, keys: seq<Key>): Report
    requires forall k :: k in keys ==> k in counts
  {
    seq(|keys|, i requires 0 <= i < |keys| => CountLine(keys[i], counts[keys[i]]))
  }

  function FunctionLines(functions: map<Site, FunctionRecord>, keys: seq<Key>): Report
    requires forall k :: k in keys ==> k.HitsKey? && Site(k.source, k.name) in functions
  {
    seq(|keys|, i requires 0 <= i < |keys| => functions[Site(keys[i].source, keys[i].name)].ToLine())
  }

  function Positive(counts: map<Key, Option<int>>, keys: seq<Key>): nat
    requires forall k :: k in keys ==> k in counts
  {
    |set k | k in keys && counts[k].Some? && counts[k].value > 0|
  }

  /** How many branches were taken: any count but zero tells. */
  function Taken(counts: map<Key, Option<int>>, keys: seq<Key>): nat
    requires forall k :: k in keys ==> k in counts
  {
    |set k | k in keys && counts[k].Some? && counts[k].value != 0|
  }

  ghost predicate Counted(c: Counters) {
    forall site :: site in c.functions ==> HitsKey(site.source, site.name) in c.counts
  }

  /** The functions, branches and lines of one source, each list with its summary. */
  function Body(c: Counters, s: string): Report
    requires Counted(c)
  {
    HitsKeysList(c, s);
    LineKeysList(c, s);
    BranchKeysList(c, s);
    var hits, branches, lines := HitsKeys(c, s), BranchKeys(c, s), LineKeys(c, s);
    FunctionLines(c.functions, hits)
    + CountLines(c.counts, hits)
    + [Summary("FNF", |hits|), Summary("FNH", Positive(c.counts, hits))]
    + (if branches == [] then []
       else CountLines(c.counts, branches) + [Summary("BRF", |branches|), Summary("BRH", Taken(c.counts, branches))])
    + CountLines(c.counts, lines)
    + [Summary("LF", |lines|), Summary("LH", Positive(c.counts, lines))]
  }

  function Records(c: Counters, sources: seq<string>): Report
    requires Counted(c)
  {
    if sources == [] then []
    else
      var s := sources[|sources| - 1];
      Records(c, sources[..|sources| - 1]) + ([Source(s)] + Body(c, s) + [EndOfRecord])
  }

  lemma CompleteIsCounted(c: Counters)
    ensures Counted(Complete(c))
  {
    forall site | site in c.functions ensures HitsKey(site.source, site.name) in Complete(c).counts {
      assert HitsKey(site.source, site.name) in HitsKeysOf(c.functions.Keys);
    }
  }

  function Print(c: Counters): Report {
    CompleteIsCounted(c);
    Records(Complete(c), Sources(c))
  }

  function Merge(reports: seq<Report>): Result<Report> {
    var r := ReadAll(EMPTY, reports);
    if r.Err? then Err(r.error)
    else if !Known(r.value) then Err(UnknownFunction)
    else Ok(Print(r.value))
  }
}
