/**
 The merged report from its lines alone: the summaries of every record count its lines, and records and lines stand
 in their order.
 */
module LcovWritten {
  import opened Lcov
  import opened LcovMerge
  import opened LcovLaws
  import opened Options
  import opened SortKeys

  /** What a summary counts. */
  datatype Tally = Functions | FunctionsHit | Branches | BranchesTaken | Lines | LinesHit

  const TALLIES := [Functions, FunctionsHit, Branches, BranchesTaken, Lines, LinesHit]

  function NameOf(t: Tally): string {
    match t
    case Functions => "FNF"
    case FunctionsHit => "FNH"
    case Branches => "BRF"
    case BranchesTaken => "BRH"
    case Lines => "LF"
    case LinesHit => "LH"
  }

  ghost predicate Counts(t: Tally, line: Line) {
    match t
    case Functions => line.Fnda?
    case FunctionsHit => line.Fnda? && line.hits > 0
    case Branches => line.Brda?
    case BranchesTaken => line.Brda? && line.taken.Some? && line.taken.value != 0
    case Lines => line.Da?
    case LinesHit => line.Da? && line.hits > 0
  }

  /** How many of the lines the summary counts. */
  ghost function Number(lines: Report, t: Tally): nat {
    if lines == [] then 0
    else Number(lines[..|lines| - 1], t) + if Counts(t, lines[|lines| - 1]) then 1 else 0
  }

  /** The values of the lines' summaries of one name. */
  ghost function Stated(lines: Report, name: string): seq<nat> {
    if lines == [] then []
    else
      var last := lines[|lines| - 1];
      Stated(lines[..|lines| - 1], name) + if last.Summary? && last.kind == name then [last.count] else []
  }

  /** Each summary stands once and counts the lines, those of branches only where there are any. */
  ghost predicate Summarized(lines: Report) {
    forall t: Tally ::
      Stated(lines, NameOf(t)) ==
        if (t == Branches || t == BranchesTaken) && Number(lines, Branches) == 0 then [] else [Number(lines, t)]
  }

  lemma {:induction false} NumberConcat(a: Report, b: Report, t: Tally)
    ensures Number(a + b, t) == Number(a, t) + Number(b, t)
    decreases |b|
  {
    if b == [] {
      assert a + b == a;
    } else {
      NumberConcat(a, b[..|b| - 1], t);
      assert (a + b)[..|a + b| - 1] == a + b[..|b| - 1];
    }
  }

  lemma {:induction false} StatedConcat(a: Report, b: Report, name: string)
    ensures Stated(a + b, name) == Stated(a, name) + Stated(b, name)
    decreases |b|
  {
    if b == [] {
      assert a + b == a;
    } else {
      StatedConcat(a, b[..|b| - 1], name);
      assert (a + b)[..|a + b| - 1] == a + b[..|b| - 1];
    }
  }

  lemma {:induction false} NoneStated(lines: Report, name: string)
    requires forall i :: 0 <= i < |lines| ==> !lines[i].Summary?
    ensures Stated(lines, name) == []
  {
    if lines != [] {
      NoneStated(lines[..|lines| - 1], name);
    }
  }

  lemma {:induction false} NoneCounted(lines: Report, t: Tally)
    requires forall i :: 0 <= i < |lines| ==> !Counts(t, lines[i])
    ensures Number(lines, t) == 0
  {
    if lines != [] {
      NoneCounted(lines[..|lines| - 1], t);
    }
  }

  // ----- The lists of a record -----

  ghost predicate Chosen(t: Tally, counts: map<Key, Option<int>>, k: Key)
    requires k in counts
  {
    Counts(t, CountLine(k, counts[k]))
  }

  ghost function ChosenOf(t: Tally, counts: map<Key, Option<int>>, keys: seq<Key>): set<Key>
    requires forall k :: k in keys ==> k in counts
  {
    set k | k in keys && Chosen(t, counts, k)
  }

  lemma {:induction false} ChosenCounted(counts: map<Key, Option<int>>, keys: seq<Key>, t: Tally)
    requires Distinct(keys) && forall k :: k in keys ==> k in counts
    ensures Number(CountLines(counts, keys), t) == |ChosenOf(t, counts, keys)|
  {
    hide Chosen, ChosenOf, Counts, CountLines;
    if keys == [] {
      NoneChosen(counts, t);
    } else {
      var init, last := keys[..|keys| - 1], keys[|keys| - 1];
      assert keys == init + [last] && last !in init;
      ChosenCounted(counts, init, t);
      LastChosen(counts, init, last, t);
      LinesLast(counts, init, last);
      var lines, line := CountLines(counts, init), CountLine(last, counts[last]);
      assert (lines + [line])[..|lines|] == lines;
    }
  }

  lemma NoneChosen(counts: map<Key, Option<int>>, t: Tally)
    ensures CountLines(counts, []) == [] && ChosenOf(t, counts, []) == {}
  {
  }

  lemma LastChosen(counts: map<Key, Option<int>>, init: seq<Key>, last: Key, t: Tally)
    requires last !in init && last in counts && forall k :: k in init ==> k in counts
    ensures |ChosenOf(t, counts, init + [last])| ==
            |ChosenOf(t, counts, init)| + if Counts(t, CountLine(last, counts[last])) then 1 else 0
  {
    var before, more := ChosenOf(t, counts, init), ChosenOf(t, counts, init + [last]);
    assert last !in before;
    assert Chosen(t, counts, last) == Counts(t, CountLine(last, counts[last]));
    hide Chosen, Counts, CountLine;
    if Chosen(t, counts, last) {
      assert more == before + {last};
    } else {
      assert more == before;
    }
  }

  lemma LinesLast(counts: map<Key, Option<int>>, init: seq<Key>, last: Key)
    requires last in counts && forall k :: k in init ==> k in counts
    ensures CountLines(counts, init + [last]) == CountLines(counts, init) + [CountLine(last, counts[last])]
  {
  }

  lemma {:induction false} AllAreCounted(keys: seq<Key>)
    requires Distinct(keys)
    ensures |set k | k in keys| == |keys|
  {
    if keys == [] {
      assert (set k | k in keys) == {};
    } else {
      var init, last := keys[..|keys| - 1], keys[|keys| - 1];
      AllAreCounted(init);
      assert keys == init + [last];
      assert (set k | k in keys) == (set k | k in init) + {last};
    }
  }

  /** A list whose every line counts as `all`, and those of `some` as `hit`, adds to these two alone. */
  lemma ListCounted(counts: map<Key, Option<int>>, keys: seq<Key>, all: Tally, hit: Tally, some: set<Key>)
    requires Distinct(keys) && forall k :: k in keys ==> k in counts
    requires (forall k :: k in some ==> k in keys) && all != hit
    requires forall k, t :: k in keys ==> (Chosen(t, counts, k) <==> t == all || (t == hit && k in some))
    ensures forall t ::
      Number(CountLines(counts, keys), t) == (if t == all then |keys| else if t == hit then |some| else 0)
    ensures forall name :: Stated(CountLines(counts, keys), name) == []
  {
    hide Chosen, Number, Stated;
    AllAreCounted(keys);
    forall t
      ensures Number(CountLines(counts, keys), t) == if t == all then |keys| else if t == hit then |some| else 0
    {
      ChosenCounted(counts, keys, t);
      assert ChosenOf(t, counts, keys) == if t == all then set k | k in keys else if t == hit then some else {};
    }
    forall name ensures Stated(CountLines(counts, keys), name) == [] {
      NoneStated(CountLines(counts, keys), name);
    }
  }

  lemma HitsCounted(counts: map<Key, Option<int>>, keys: seq<Key>)
    requires Distinct(keys) && forall k :: k in keys ==> k in counts && k.HitsKey?
    ensures var lines := CountLines(counts, keys);
      && (forall t :: Number(lines, t) ==
           (if t == Functions then |keys| else if t == FunctionsHit then Positive(counts, keys) else 0))
      && forall name :: Stated(lines, name) == []
  {
    ListCounted(counts, keys, Functions, FunctionsHit, set k | k in keys && counts[k].Some? && counts[k].value > 0);
  }

  lemma BranchesCounted(counts: map<Key, Option<int>>, keys: seq<Key>)
    requires Distinct(keys) && forall k :: k in keys ==> k in counts && k.BranchKey?
    ensures var lines := CountLines(counts, keys);
      && (forall t :: Number(lines, t) ==
           (if t == Branches then |keys| else if t == BranchesTaken then Taken(counts, keys) else 0))
      && forall name :: Stated(lines, name) == []
  {
    ListCounted(counts, keys, Branches, BranchesTaken, set k | k in keys && counts[k].Some? && counts[k].value != 0);
  }

  lemma LinesCounted(counts: map<Key, Option<int>>, keys: seq<Key>)
    requires Distinct(keys) && forall k :: k in keys ==> k in counts && k.LineKey?
    ensures var lines := CountLines(counts, keys);
      && (forall t :: Number(lines, t) ==
           (if t == Lines then |keys| else if t == LinesHit then Positive(counts, keys) else 0))
      && forall name :: Stated(lines, name) == []
  {
    ListCounted(counts, keys, Lines, LinesHit, set k | k in keys && counts[k].Some? && counts[k].value > 0);
  }

  lemma FunctionsCounted(functions: map<Site, FunctionRecord>, keys: seq<Key>)
    requires forall k :: k in keys ==> k.HitsKey? && Site(k.source, k.name) in functions
    ensures forall t :: Number(FunctionLines(functions, keys), t) == 0
    ensures forall name :: Stated(FunctionLines(functions, keys), name) == []
  {
    forall t ensures Number(FunctionLines(functions, keys), t) == 0 {
      NoneCounted(FunctionLines(functions, keys), t);
    }
    forall name ensures Stated(FunctionLines(functions, keys), name) == [] {
      NoneStated(FunctionLines(functions, keys), name);
    }
  }

  lemma PairStated(x: string, m: nat, y: string, n: nat)
    requires x != y
    ensures var pair := [Summary(x, m), Summary(y, n)];
      && (forall t :: Number(pair, t) == 0)
      && forall name :: Stated(pair, name) == if name == x then [m] else if name == y then [n] else []
  {
    var pair := [Summary(x, m), Summary(y, n)];
    assert pair[..1] == [Summary(x, m)] && pair[..1][..0] == [];
    forall t ensures Number(pair, t) == 0 {
      NoneCounted(pair, t);
    }
    forall name ensures Stated(pair, name) == if name == x then [m] else if name == y then [n] else [] {
      assert Stated(pair[..1], name) == if name == x then [m] else [];
    }
  }

  // ----- A record -----

  lemma Concat(a: Report, b: Report)
    ensures forall t :: Number(a + b, t) == Number(a, t) + Number(b, t)
    ensures forall name :: Stated(a + b, name) == Stated(a, name) + Stated(b, name)
  {
    forall t ensures Number(a + b, t) == Number(a, t) + Number(b, t) {
      NumberConcat(a, b, t);
    }
    forall name ensures Stated(a + b, name) == Stated(a, name) + Stated(b, name) {
      StatedConcat(a, b, name);
    }
  }

  lemma NothingCounted()
    ensures forall t :: Number([], t) == 0
    ensures forall name :: Stated([], name) == []
  {
  }

  lemma BranchPartCounted(c: Counters, s: string)
    requires Counted(c)
    ensures forall k :: k in BranchKeys(c, s) ==> k in c.counts
    ensures var branches, part := BranchKeys(c, s), BranchPart(c, BranchKeys(c, s));
      && (forall t :: Number(part, t) ==
           (if t == Branches then |branches| else if t == BranchesTaken then Taken(c.counts, branches) else 0))
      && (forall name :: Stated(part, name) ==
           (if branches == [] then []
            else if name == "BRF" then [|branches|] else if name == "BRH" then [Taken(c.counts, branches)] else []))
  {
    hide BranchKeys, Number, Stated, Taken, CountLines;
    BranchKeysList(c, s);
    var branches := BranchKeys(c, s);
    NothingCounted();
    BranchesCounted(c.counts, branches);
    if branches == [] {
      NoneTaken(c.counts);
    } else {
      PairStated("BRF", |branches|, "BRH", Taken(c.counts, branches));
      Concat(CountLines(c.counts, branches), [Summary("BRF", |branches|), Summary("BRH", Taken(c.counts, branches))]);
    }
  }

  lemma NoneTaken(counts: map<Key, Option<int>>)
    ensures Taken(counts, []) == 0
  {
  }

  lemma FunctionPartCounted(c: Counters, s: string)
    requires Counted(c)
    ensures forall k :: k in HitsKeys(c, s) ==> k.HitsKey? && Site(k.source, k.name) in c.functions && k in c.counts
    ensures var hits := HitsKeys(c, s);
      var part := FunctionLines(c.functions, hits) + CountLines(c.counts, hits)
                  + [Summary("FNF", |hits|), Summary("FNH", Positive(c.counts, hits))];
      && (forall t :: Number(part, t) ==
           (if t == Functions then |hits| else if t == FunctionsHit then Positive(c.counts, hits) else 0))
      && (forall name :: Stated(part, name) ==
           (if name == "FNF" then [|hits|] else if name == "FNH" then [Positive(c.counts, hits)] else []))
  {
    hide Number, Stated, Positive, CountLines, FunctionLines, HitsKeys, Distinct;
    HitsKeysList(c, s);
    var hits := HitsKeys(c, s);
    FunctionsCounted(c.functions, hits);
    HitsCounted(c.counts, hits);
    PairStated("FNF", |hits|, "FNH", Positive(c.counts, hits));
    Concat(FunctionLines(c.functions, hits), CountLines(c.counts, hits));
    Concat(FunctionLines(c.functions, hits) + CountLines(c.counts, hits),
           [Summary("FNF", |hits|), Summary("FNH", Positive(c.counts, hits))]);
  }

  lemma LinePartCounted(c: Counters, s: string)
    requires Counted(c)
    ensures forall k :: k in LineKeys(c, s) ==> k in c.counts
    ensures var lines := LineKeys(c, s);
      var part := CountLines(c.counts, lines) + [Summary("LF", |lines|), Summary("LH", Positive(c.counts, lines))];
      && (forall t :: Number(part, t) ==
           (if t == Lines then |lines| else if t == LinesHit then Positive(c.counts, lines) else 0))
      && (forall name :: Stated(part, name) ==
           (if name == "LF" then [|lines|] else if name == "LH" then [Positive(c.counts, lines)] else []))
  {
    hide Number, Stated, Positive, CountLines, LineKeys, Distinct;
    LineKeysList(c, s);
    var lines := LineKeys(c, s);
    LinesCounted(c.counts, lines);
    PairStated("LF", |lines|, "LH", Positive(c.counts, lines));
    Concat(CountLines(c.counts, lines), [Summary("LF", |lines|), Summary("LH", Positive(c.counts, lines))]);
  }

  lemma BodySummarized(c: Counters, s: string)
    requires Counted(c)
    ensures Summarized(Body(c, s))
  {
    hide Number, Stated, Positive, Taken, BranchPart, CountLines, FunctionLines, Body;
    hide HitsKeys, LineKeys, BranchKeys, Distinct;
    FunctionPartCounted(c, s);
    BranchPartCounted(c, s);
    LinePartCounted(c, s);
    var hits, branches, lines := HitsKeys(c, s), BranchKeys(c, s), LineKeys(c, s);
    var f := FunctionLines(c.functions, hits) + CountLines(c.counts, hits)
             + [Summary("FNF", |hits|), Summary("FNH", Positive(c.counts, hits))];
    var b := BranchPart(c, branches);
    var d := CountLines(c.counts, lines) + [Summary("LF", |lines|), Summary("LH", Positive(c.counts, lines))];
    Concat(f, b);
    Concat(f + b, d);
    BodyIs(c, s);
    assert Body(c, s) == f + b + d;
  }

  lemma BodyIs(c: Counters, s: string)
    requires Counted(c)
    ensures forall k :: k in HitsKeys(c, s) ==> k.HitsKey? && Site(k.source, k.name) in c.functions && k in c.counts
    ensures forall k :: k in LineKeys(c, s) + BranchKeys(c, s) ==> k in c.counts
    ensures var hits, branches, lines := HitsKeys(c, s), BranchKeys(c, s), LineKeys(c, s);
      Body(c, s) ==
        FunctionLines(c.functions, hits) + CountLines(c.counts, hits)
        + [Summary("FNF", |hits|), Summary("FNH", Positive(c.counts, hits))] + BranchPart(c, branches)
        + CountLines(c.counts, lines) + [Summary("LF", |lines|), Summary("LH", Positive(c.counts, lines))]
  {
    hide HitsKeys, LineKeys, BranchKeys, Positive, Taken, CountLines, FunctionLines;
    HitsKeysList(c, s);
    LineKeysList(c, s);
    BranchKeysList(c, s);
  }

  // ----- The order of a record's lines -----

  ghost function Place(line: Line): nat {
    match line
    case Fn(_, _) => 0
    case Fnda(_, _) => 1
    case Brda(_, _, _, _) => 4
    case Da(_, _) => 7
    case Summary(kind, _) =>
      if kind == "FNF" then 2 else if kind == "FNH" then 3 else if kind == "BRF" then 5 else if kind == "BRH" then 6
      else if kind == "LF" then 8 else 9
    case _ => 10
  }

  /** By kind, functions by start and name, branches by line, block and branch, and lines by number. */
  ghost predicate Precedes(x: Line, y: Line) {
    || Place(x) < Place(y)
    || (x.Fnda? && y.Fnda?)
    || (x.Da? && y.Da? && x.number < y.number)
    || (x.Brda? && y.Brda? && RankLess(Rank(x.number, [x.block, x.branch]), Rank(y.number, [y.block, y.branch])))
    || (x.Fn? && y.Fn? && RankLess(FunctionRank(x), FunctionRank(y)))
  }

  ghost function FunctionRank(x: Line): Rank
    requires x.Fn?
  {
    Rank(x.start, [ParseFunction(x.start, x.rest).name])
  }

  ghost predicate Ordered(lines: Report) {
    forall i, j :: 0 <= i < j < |lines| ==> Precedes(lines[i], lines[j])
  }

  ghost predicate Between(lines: Report, low: nat, high: nat) {
    forall i :: 0 <= i < |lines| ==> low <= Place(lines[i]) < high
  }

  lemma OrderConcat(a: Report, b: Report, low: nat, middle: nat, high: nat)
    requires Ordered(a) && Ordered(b) && Between(a, low, middle) && Between(b, middle, high) && low <= middle <= high
    ensures Ordered(a + b) && Between(a + b, low, high)
  {
    hide RankLess, ParseFunction;
  }

  lemma HitsOrdered(c: Counters, s: string)
    requires Sound(c) && Counted(c)
    ensures forall k :: k in HitsKeys(c, s) ==> k.HitsKey? && Site(k.source, k.name) in c.functions && k in c.counts
    ensures var lines := FunctionLines(c.functions, HitsKeys(c, s)); Ordered(lines) && Between(lines, 0, 1)
    ensures var lines := CountLines(c.counts, HitsKeys(c, s)); Ordered(lines) && Between(lines, 1, 2)
    ensures Named(FunctionLines(c.functions, HitsKeys(c, s)), CountLines(c.counts, HitsKeys(c, s)))
  {
    HitsKeysList(c, s);
    hide RankLess, InOrder, Restorable;
    var ranks, hits := InOrder(FunctionRanks(c, s)), HitsKeys(c, s);
    var lines := FunctionLines(c.functions, hits);
    forall i | 0 <= i < |hits|
      ensures lines[i].Fn? && FunctionRank(lines[i]) == ranks[i]
      ensures ParseFunction(lines[i].start, lines[i].rest).name == hits[i].name
    {
      assert hits[i] in hits && ranks[i] in FunctionRanks(c, s);
      FunctionReads(c, Site(s, hits[i].name));
      hide ParseFunction;
    }
    hide ParseFunction;
  }

  lemma FunctionReads(c: Counters, site: Site)
    requires Sound(c) && site in c.functions
    ensures var line := c.functions[site].ToLine();
      line.start == c.functions[site].start && ParseFunction(line.start, line.rest).name == site.name
  {
    FunctionRoundTrip(c.functions[site]);
  }

  /** The functions' counts name the functions, in their order. */
  ghost predicate Named(functions: Report, hits: Report) {
    |functions| == |hits| && forall i :: 0 <= i < |hits| ==>
      functions[i].Fn? && hits[i].Fnda? && ParseFunction(functions[i].start, functions[i].rest).name == hits[i].name
  }

  lemma LinesOrdered(c: Counters, s: string)
    requires Counted(c)
    ensures forall k :: k in LineKeys(c, s) ==> k in c.counts
    ensures var lines := CountLines(c.counts, LineKeys(c, s)); Ordered(lines) && Between(lines, 7, 8)
  {
    LineKeysList(c, s);
    hide InOrder;
    var ranks, keys := InOrder(LineRanks(c, s)), LineKeys(c, s);
    forall i, j | 0 <= i < j < |keys| ensures keys[i].number < keys[j].number {
      assert ranks[i] in LineRanks(c, s) && ranks[j] in LineRanks(c, s);
      assert RankLess(ranks[i], ranks[j]);
    }
  }

  lemma BranchesOrdered(c: Counters, s: string)
    requires Counted(c)
    ensures forall k :: k in BranchKeys(c, s) ==> k in c.counts
    ensures var lines := BranchPart(c, BranchKeys(c, s)); Ordered(lines) && Between(lines, 4, 7)
  {
    BranchKeysList(c, s);
    hide InOrder, RankLess, Taken;
    var ranks, keys := InOrder(BranchRanks(c, s)), BranchKeys(c, s);
    forall i | 0 <= i < |keys| ensures ranks[i] == Rank(keys[i].number, [keys[i].block, keys[i].branch]) {
      assert ranks[i] in BranchRanks(c, s);
    }
    var list := CountLines(c.counts, keys);
    assert Ordered(list) && Between(list, 4, 5);
    if keys != [] {
      OrderConcat(list, [Summary("BRF", |keys|), Summary("BRH", Taken(c.counts, keys))], 4, 5, 7);
    }
  }

  /** The lines of a record in their order, with a count for each function. */
  ghost predicate Written(lines: Report) {
    && Ordered(lines)
    && exists n: nat :: 2 * n <= |lines| && Named(lines[..n], lines[n..2 * n]) && Between(lines[2 * n..], 2, 10)
  }

  lemma PartsWritten(f: Report, h: Report, x: Report, b: Report, d: Report, y: Report)
    requires Ordered(f) && Between(f, 0, 1) && Ordered(h) && Between(h, 1, 2) && Named(f, h)
    requires Ordered(x) && Between(x, 2, 4) && Ordered(b) && Between(b, 4, 7)
    requires Ordered(d) && Between(d, 7, 8) && Ordered(y) && Between(y, 8, 10)
    ensures Written(f + h + x + b + d + y)
  {
    assert |f| == |h|;
    hide Ordered, Between, Named;
    OrderConcat(f, h, 0, 1, 2);
    OrderConcat(b, d, 4, 7, 8);
    OrderConcat(b + d, y, 4, 8, 10);
    OrderConcat(x, b + d + y, 2, 4, 10);
    OrderConcat(f + h, x + (b + d + y), 0, 2, 10);
    var body := f + h + x + b + d + y;
    assert body == f + h + (x + (b + d + y));
    assert body[..|f|] == f && body[|f|..2 * |f|] == h && body[2 * |f|..] == x + (b + d + y);
  }

  lemma PairOrdered(x: Line, y: Line, low: nat)
    requires Place(x) == low && Place(y) == low + 1
    ensures Ordered([x, y]) && Between([x, y], low, low + 2)
  {
  }

  lemma BodyWritten(c: Counters, s: string)
    requires Sound(c) && Counted(c)
    ensures Written(Body(c, s))
  {
    hide Body, Positive, BranchPart, CountLines, FunctionLines, HitsKeys, LineKeys, BranchKeys;
    hide Named, Counted, Sound, Ordered, Between, Written;
    BodyIs(c, s);
    HitsOrdered(c, s);
    LinesOrdered(c, s);
    BranchesOrdered(c, s);
    var hits, branches, lines := HitsKeys(c, s), BranchKeys(c, s), LineKeys(c, s);
    PairOrdered(Summary("FNF", |hits|), Summary("FNH", Positive(c.counts, hits)), 2);
    PairOrdered(Summary("LF", |lines|), Summary("LH", Positive(c.counts, lines)), 8);
    PartsWritten(
      FunctionLines(c.functions, hits), CountLines(c.counts, hits),
      [Summary("FNF", |hits|), Summary("FNH", Positive(c.counts, hits))], BranchPart(c, branches),
      CountLines(c.counts, lines), [Summary("LF", |lines|), Summary("LH", Positive(c.counts, lines))]);
  }

  // ----- The records of a report -----

  /** The lines from a source to the end of its record. */
  ghost predicate IsRecord(report: Report, a: nat, b: nat) {
    && a < b < |report| && report[a].Source? && report[b].EndOfRecord?
    && forall i :: a < i < b ==> !report[i].Source? && !report[i].EndOfRecord?
  }

  lemma WrittenIsInside(lines: Report)
    requires Written(lines)
    ensures forall i :: 0 <= i < |lines| ==> !lines[i].Source? && !lines[i].EndOfRecord?
  {
    hide Ordered, ParseFunction;
    var n: nat :| 2 * n <= |lines| && Named(lines[..n], lines[n..2 * n]) && Between(lines[2 * n..], 2, 10);
    forall i | 0 <= i < |lines| ensures !lines[i].Source? && !lines[i].EndOfRecord? {
      if i < n {
        assert lines[..n][i] == lines[i];
      } else if i < 2 * n {
        assert lines[n..2 * n][i - n] == lines[i];
      } else {
        assert lines[2 * n..][i - 2 * n] == lines[i];
      }
    }
  }

  lemma BodyIsInside(c: Counters, s: string)
    requires Sound(c) && Counted(c)
    ensures forall i :: 0 <= i < |Body(c, s)| ==> !Body(c, s)[i].Source? && !Body(c, s)[i].EndOfRecord?
  {
    hide Body, Sound, Counted, Written;
    BodyWritten(c, s);
    WrittenIsInside(Body(c, s));
  }

  /** Each record of the printed sources is one of them, with its body. */
  lemma {:induction false} RecordIsOf(c: Counters, sources: seq<string>, a: nat, b: nat) returns (i: nat)
    requires Sound(c) && Counted(c) && IsRecord(Records(c, sources), a, b)
    ensures i < |sources|
    ensures var report := Records(c, sources);
      report[a] == Source(sources[i]) && report[a + 1..b] == Body(c, sources[i])
  {
    hide Body, Sound, Counted;
    var init, s := sources[..|sources| - 1], sources[|sources| - 1];
    var before, body := Records(c, init), Body(c, s);
    BodyIsInside(c, s);
    var report := Records(c, sources);
    assert report == before + ([Source(s)] + body + [EndOfRecord]);
    assert forall j :: 0 <= j < |body| ==> report[|before| + 1 + j] == body[j];
    if a < |before| {
      assert report[|before|].Source?;
      assert b < |before|;
      assert forall j :: 0 <= j < |before| ==> report[j] == before[j];
      i := RecordIsOf(c, init, a, b);
      assert report[a + 1..b] == before[a + 1..b];
    } else {
      i := |sources| - 1;
      assert a == |before|;
      assert report[|before| + 1 + |body|].EndOfRecord?;
      assert b == |before| + 1 + |body|;
      assert report[a + 1..b] == body;
    }
  }

  lemma MergedIs(reports: seq<Report>) returns (c: Counters)
    requires Merge(reports).Ok?
    ensures Sound(Complete(c)) && Counted(Complete(c)) && Merge(reports).value == Records(Complete(c), Sources(c))
  {
    AllKeepSound(EMPTY, reports) by {
      NothingIsSound();
    }
    c := ReadAll(EMPTY, reports).value;
    hide ReadAll, Records, Sources;
    CompleteIsCounted(c);
    CompleteIsSound(c);
  }

  lemma CompleteIsSound(c: Counters)
    requires Sound(c)
    ensures Sound(Complete(c))
  {
    hide Restorable;
  }

  /** In every record of the merged report each summary counts the lines it stands for, and the lines stand in their
      order, a count for each function. */
  lemma RecordsAddUp(reports: seq<Report>, a: nat, b: nat)
    requires Merge(reports).Ok? && IsRecord(Merge(reports).value, a, b)
    ensures Summarized(Merge(reports).value[a + 1..b]) && Written(Merge(reports).value[a + 1..b])
  {
    hide Merge, Records, Sources, Body, Summarized, Written, Sound, Counted;
    var c := MergedIs(reports);
    var i := RecordIsOf(Complete(c), Sources(c), a, b);
    BodySummarized(Complete(c), Sources(c)[i]);
    BodyWritten(Complete(c), Sources(c)[i]);
  }

  // ----- The order of the records -----

  ghost predicate Ascending(sources: seq<string>) {
    forall i, j :: 0 <= i < j < |sources| ==> StringLess(sources[i], sources[j])
  }

  ghost predicate AscendingRecords(report: Report) {
    forall i, j :: 0 <= i < j < |report| && report[i].Source? && report[j].Source? ==>
        StringLess(report[i].source, report[j].source)
  }

  lemma SingleKey(a: string, b: string)
    ensures KeyLess([a], [b]) <==> StringLess(a, b)
  {
    StringsAreOrdered();
    hide StringLess;
    assert [a][1..] == [] && [b][1..] == [];
    assert KeyLess([a], [b]) == if a == b then Lex(StringLess, [a][1..], [b][1..]) else StringLess(a, b);
  }

  lemma SourcesAscend(c: Counters)
    ensures Ascending(Sources(c))
  {
    hide InOrder, StringLess;
    var ranks, names := InOrder(SourceRanks(c)), Sources(c);
    forall i, j | 0 <= i < j < |names| ensures StringLess(names[i], names[j]) {
      assert ranks[i] in SourceRanks(c) && ranks[j] in SourceRanks(c);
      assert RankLess(ranks[i], ranks[j]);
      assert ranks[i].texts == [names[i]] && ranks[j].texts == [names[j]];
      SingleKey(names[i], names[j]);
    }
  }

  lemma {:induction false} RecordsAscend(c: Counters, sources: seq<string>)
    requires Sound(c) && Counted(c) && Ascending(sources)
    ensures AscendingRecords(Records(c, sources))
    ensures forall i :: 0 <= i < |Records(c, sources)| && Records(c, sources)[i].Source? ==>
        Records(c, sources)[i].source in sources
  {
    hide Body, Sound, Counted, StringLess;
    if sources != [] {
      var init, s := sources[..|sources| - 1], sources[|sources| - 1];
      var before, body := Records(c, init), Body(c, s);
      RecordsAscend(c, init);
      BodyIsInside(c, s);
      var report := Records(c, sources);
      assert report == before + ([Source(s)] + body + [EndOfRecord]);
      assert forall j :: 0 <= j < |body| ==> report[|before| + 1 + j] == body[j];
      assert forall j :: 0 <= j < |before| ==> report[j] == before[j];
      assert forall i :: |before| < i < |report| - 1 ==> report[i] == body[i - |before| - 1];
    }
  }

  /** The records of the merged report stand in the order of their sources. */
  lemma RecordsStandInOrder(reports: seq<Report>)
    requires Merge(reports).Ok?
    ensures AscendingRecords(Merge(reports).value)
  {
    hide Merge, Records, Sources, Sound, Counted, AscendingRecords, Ascending;
    var c := MergedIs(reports);
    SourcesAscend(c);
    RecordsAscend(Complete(c), Sources(c));
  }
}
