/**
 What the merged counters are, read off the lines of the reports: every count is the sum of what the lines
 say, so it does not depend on the order of the reports.
 */
module LcovSums {
  import opened Lcov
  import opened LcovMerge
  import opened Options

  // ----- What the lines say -----

  /** What one line of the key's own source says about the key. */
  ghost function Says(line: Line, k: Key): seq<Option<int>> {
    match line
    case Fnda(hits, name) => if k == HitsKey(k.source, name) then [Some(hits)] else []
    case Da(number, hits) => if k == LineKey(k.source, number) then [Some(hits)] else []
    case Brda(number, block, branch, taken) => if k == BranchKey(k.source, number, block, branch) then [taken] else []
    case _ => []
  }

  ghost function NextSource(current: Option<string>, line: Line): Option<string> {
    if line.Source? then Some(line.source) else if line.EndOfRecord? then None else current
  }

  /** What the lines say about a key, in their order; `current` is the source they begin in. */
  ghost function Mentions(current: Option<string>, lines: Report, k: Key): seq<Option<int>>
    decreases |lines|
  {
    if lines == [] then []
    else
      (if current == Some(k.source) then Says(lines[0], k) else [])
      + Mentions(NextSource(current, lines[0]), lines[1..], k)
  }

  /** The records the lines give for a function, in their order. */
  ghost function Declares(current: Option<string>, lines: Report, site: Site): seq<FunctionRecord>
    decreases |lines|
  {
    if lines == [] then []
    else
      (if current == Some(site.source) && lines[0].Fn? && ParseFunction(lines[0].start, lines[0].rest).name == site.name
       then [ParseFunction(lines[0].start, lines[0].rest)] else [])
      + Declares(NextSource(current, lines[0]), lines[1..], site)
  }

  ghost function AllMentions(reports: seq<Report>, k: Key): seq<Option<int>> {
    if reports == [] then [] else Mentions(None, reports[0], k) + AllMentions(reports[1..], k)
  }

  ghost function AllDeclare(reports: seq<Report>, site: Site): seq<FunctionRecord> {
    if reports == [] then [] else Declares(None, reports[0], site) + AllDeclare(reports[1..], site)
  }

  // ----- Sums -----

  ghost predicate Ran(said: seq<Option<int>>) {
    exists i :: 0 <= i < |said| && said[i].Some?
  }

  ghost function Amount(said: seq<Option<int>>): int {
    if said == [] then 0 else (if said[0].Some? then said[0].value else 0) + Amount(said[1..])
  }

  /** The sum of the executions that were counted, if any was. */
  ghost function Total(said: seq<Option<int>>): Option<int> {
    if Ran(said) then Some(Amount(said)) else None
  }

  lemma TotalOfTwo(a: Option<int>, b: Option<int>, rest: seq<Option<int>>)
    ensures Total([Plus(a, b)] + rest) == Total([a, b] + rest)
  {
    var one, two := [Plus(a, b)] + rest, [a, b] + rest;
    assert one[1..] == rest && two[1..] == [b] + rest && ([b] + rest)[1..] == rest;
    var valueOfB := if b.Some? then b.value else 0;
    assert Amount([b] + rest) == valueOfB + Amount(rest);
    assert Amount(two) == (if a.Some? then a.value else 0) + valueOfB + Amount(rest);
    assert Ran(one) <==> Plus(a, b).Some? || Ran(rest) by {
      if Ran(rest) {
        var i :| 0 <= i < |rest| && rest[i].Some?;
        assert one[i + 1].Some?;
      }
      assert one[0] == Plus(a, b);
      assert forall i :: 0 < i < |one| ==> one[i] == rest[i - 1];
    }
    assert Ran(two) <==> a.Some? || b.Some? || Ran(rest) by {
      if Ran(rest) {
        var i :| 0 <= i < |rest| && rest[i].Some?;
        assert two[i + 2].Some?;
      }
      assert two[0] == a && two[1] == b;
      assert forall i :: 1 < i < |two| ==> two[i] == rest[i - 2];
    }
  }

  lemma TotalOfOne(a: Option<int>)
    ensures Total([a]) == a
  {
    var said := [a];
    assert said[0] == a && said[1..] == [];
    assert Amount(said[1..]) == 0;
    assert Ran(said) <==> a.Some?;
  }

  ghost function Before(counts: map<Key, Option<int>>, k: Key): seq<Option<int>> {
    if k in counts then [counts[k]] else []
  }

  /** A step makes a count the sum of what it was and what the line says. */
  lemma StepCounts(s: Reading, line: Line, k: Key)
    requires Step(s, line).Ok?
    ensures var r := Step(s, line).value;
            var here := if s.current == Some(k.source) then Says(line, k) else [];
            && r.current == NextSource(s.current, line)
            && |here| <= 1
            && Before(r.counters.counts, k) ==
               (if here == [] then Before(s.counters.counts, k)
                else if k in s.counters.counts then [Plus(s.counters.counts[k], here[0])]
                else here)
  {
    hide ParseFunction;
  }

  lemma {:induction false} ReadCounts(s: Reading, lines: Report, k: Key)
    requires Read(s, lines).Ok?
    ensures var said := Before(s.counters.counts, k) + Mentions(s.current, lines, k);
            var counts := Read(s, lines).value.counters.counts;
            (k in counts <==> said != []) && (k in counts ==> counts[k] == Total(said))
    decreases |lines|
  {
    hide Step, Says, NextSource, Total;
    var before := Before(s.counters.counts, k);
    if lines == [] {
      assert before + [] == before;
      if before != [] {
        TotalOfOne(before[0]);
      }
    } else {
      var r := Step(s, lines[0]).value;
      StepCounts(s, lines[0], k);
      ReadCounts(r, lines[1..], k);
      var here := if s.current == Some(k.source) then Says(lines[0], k) else [];
      var rest := Mentions(r.current, lines[1..], k);
      if here == [] {
        assert before + (here + rest) == before + rest;
      } else if k in s.counters.counts {
        TotalOfTwo(before[0], here[0], rest);
        assert before + (here + rest) == [before[0], here[0]] + rest;
      } else {
        assert before + (here + rest) == here + rest;
      }
    }
  }

  lemma {:induction false} TotalJoins(a: seq<Option<int>>, b: seq<Option<int>>)
    requires a != []
    ensures Total([Total(a)] + b) == Total(a + b)
    decreases |a|
  {
    hide Total;
    if |a| == 1 {
      TotalOfOne(a[0]);
      assert a == [a[0]] && [Total(a)] + b == a + b;
    } else {
      var joined := [Plus(a[0], a[1])] + a[2..];
      TotalOfTwo(a[0], a[1], a[2..]);
      assert a == [a[0], a[1]] + a[2..];
      TotalJoins(joined, b);
      TotalOfTwo(a[0], a[1], a[2..] + b);
      assert joined + b == [Plus(a[0], a[1])] + (a[2..] + b);
      assert a + b == [a[0], a[1]] + (a[2..] + b);
    }
  }

  lemma {:induction false} ReadAllCounts(c: Counters, reports: seq<Report>, k: Key)
    requires ReadAll(c, reports).Ok?
    ensures var said := Before(c.counts, k) + AllMentions(reports, k);
            var counts := ReadAll(c, reports).value.counts;
            (k in counts <==> said != []) && (k in counts ==> counts[k] == Total(said))
    decreases |reports|
  {
    hide Read, Mentions, Total;
    var before := Before(c.counts, k);
    if reports == [] {
      assert before + [] == before;
      if before != [] {
        TotalOfOne(before[0]);
      }
    } else {
      var r := ReadReport(c, reports[0]).value;
      ReadCounts(Reading(c, None), reports[0], k);
      ReadAllCounts(r, reports[1..], k);
      var here, rest := Mentions(None, reports[0], k), AllMentions(reports[1..], k);
      assert before + (here + rest) == (before + here) + rest;
      if before + here != [] {
        TotalJoins(before + here, rest);
      } else {
        assert (before + here) + rest == rest;
      }
    }
  }

  /** Merged counters hold a count exactly for what some line mentions, and it is the sum of what the lines
      of every report say, a branch that never ran adding nothing. */
  lemma CountsAreSums(reports: seq<Report>, k: Key)
    requires ReadAll(EMPTY, reports).Ok?
    ensures var counts := ReadAll(EMPTY, reports).value.counts;
            && (k in counts <==> AllMentions(reports, k) != [])
            && (k in counts ==> counts[k] == Total(AllMentions(reports, k)))
  {
    hide ReadAll, AllMentions;
    ReadAllCounts(EMPTY, reports, k);
    assert [] + AllMentions(reports, k) == AllMentions(reports, k);
  }

  // ----- Functions -----

  ghost function KeptBefore(functions: map<Site, FunctionRecord>, site: Site): seq<FunctionRecord> {
    if site in functions then [functions[site]] else []
  }

  lemma {:induction false} ReadDeclares(s: Reading, lines: Report, site: Site)
    requires Read(s, lines).Ok?
    ensures var said := KeptBefore(s.counters.functions, site) + Declares(s.current, lines, site);
            var functions := Read(s, lines).value.counters.functions;
            (site in functions <==> said != []) && (site in functions ==> functions[site] == said[0])
    decreases |lines|
  {
    hide ParseFunction, AddCounts;
    if lines != [] {
      ReadDeclares(Step(s, lines[0]).value, lines[1..], site);
    }
  }

  lemma {:induction false} ReadAllDeclare(c: Counters, reports: seq<Report>, site: Site)
    requires ReadAll(c, reports).Ok?
    ensures var said := KeptBefore(c.functions, site) + AllDeclare(reports, site);
            var functions := ReadAll(c, reports).value.functions;
            (site in functions <==> said != []) && (site in functions ==> functions[site] == said[0])
    decreases |reports|
  {
    hide Read, Declares;
    if reports != [] {
      ReadDeclares(Reading(c, None), reports[0], site);
      ReadAllDeclare(ReadReport(c, reports[0]).value, reports[1..], site);
    }
  }

  /** Merged counters hold exactly the functions some line declares, each as its first line does. */
  lemma FunctionsAreFirst(reports: seq<Report>, site: Site)
    requires ReadAll(EMPTY, reports).Ok?
    ensures var functions := ReadAll(EMPTY, reports).value.functions;
            && (site in functions <==> AllDeclare(reports, site) != [])
            && (site in functions ==> functions[site] == AllDeclare(reports, site)[0])
  {
    ReadAllDeclare(EMPTY, reports, site);
    assert [] + AllDeclare(reports, site) == AllDeclare(reports, site);
  }

  // ----- The order of the reports -----

  ghost predicate MentionedBy(reports: seq<Report>, k: Key) {
    exists r :: r in reports && Mentions(None, r, k) != []
  }

  ghost predicate RanIn(reports: seq<Report>, k: Key) {
    exists r :: r in reports && Ran(Mentions(None, r, k))
  }

  ghost function AmountIn(reports: seq<Report>, k: Key): int {
    if reports == [] then 0 else Amount(Mentions(None, reports[0], k)) + AmountIn(reports[1..], k)
  }

  lemma {:induction false} AmountConcat(a: seq<Option<int>>, b: seq<Option<int>>)
    ensures Amount(a + b) == Amount(a) + Amount(b)
    ensures Ran(a + b) <==> Ran(a) || Ran(b)
    decreases |a|
  {
    if a == [] {
      assert a + b == b;
    } else {
      assert (a + b)[1..] == a[1..] + b;
      AmountConcat(a[1..], b);
      assert forall i :: 0 <= i < |a| ==> (a + b)[i] == a[i];
      if Ran(b) {
        var i :| 0 <= i < |b| && b[i].Some?;
        assert (a + b)[|a| + i].Some?;
      }
      if Ran(a + b) && !Ran(a) {
        var i :| 0 <= i < |a + b| && (a + b)[i].Some?;
        assert b[i - |a|].Some?;
      }
    }
  }

  lemma {:induction false} MentionsByReport(reports: seq<Report>, k: Key)
    ensures AllMentions(reports, k) != [] <==> MentionedBy(reports, k)
    ensures Ran(AllMentions(reports, k)) <==> RanIn(reports, k)
    ensures Amount(AllMentions(reports, k)) == AmountIn(reports, k)
  {
    hide Mentions, Ran, Amount;
    if reports == [] {
      NothingRan();
    } else {
      var first, rest := reports[0], reports[1..];
      assert forall r :: r in reports <==> r == first || r in rest;
      MentionsByReport(rest, k);
      AmountConcat(Mentions(None, first, k), AllMentions(rest, k));
    }
  }

  lemma NothingRan()
    ensures !Ran([]) && Amount([]) == 0
  {
  }

  lemma {:induction false} AmountAround(a: seq<Report>, r: Report, b: seq<Report>, k: Key)
    ensures AmountIn(a + [r] + b, k) == Amount(Mentions(None, r, k)) + AmountIn(a + b, k)
    decreases |a|
  {
    hide Mentions, Amount;
    if a == [] {
      assert a + [r] + b == [r] + b && a + b == b;
      assert ([r] + b)[1..] == b;
    } else {
      assert (a + [r] + b)[1..] == a[1..] + [r] + b && (a + b)[1..] == a[1..] + b;
      AmountAround(a[1..], r, b, k);
    }
  }

  lemma Without<T>(s: seq<T>, i: nat)
    requires i < |s|
    ensures s == s[..i] + [s[i]] + s[i + 1..]
    ensures multiset(s[..i] + s[i + 1..]) == multiset(s) - multiset{s[i]}
  {
    assert s == s[..i] + [s[i]] + s[i + 1..];
  }

  lemma FindFirst(p: seq<Report>, q: seq<Report>) returns (i: nat)
    requires multiset(p) == multiset(q) && p != []
    ensures i < |q| && q[i] == p[0]
    ensures multiset(p[1..]) == multiset(q[..i] + q[i + 1..])
  {
    assert p[0] in multiset(q);
    i :| 0 <= i < |q| && q[i] == p[0];
    Without(q, i);
    Without(p, 0);
    assert p[..0] + p[1..] == p[1..];
  }

  lemma {:induction false} AmountPermutes(p: seq<Report>, q: seq<Report>, k: Key)
    requires multiset(p) == multiset(q)
    ensures AmountIn(p, k) == AmountIn(q, k)
    decreases |p|
  {
    hide Mentions, Amount;
    if p == [] {
      assert |multiset(q)| == |q|;
    } else {
      var i := FindFirst(p, q);
      var rest := q[..i] + q[i + 1..];
      AmountPermutes(p[1..], rest, k);
      AmountAround(q[..i], q[i], q[i + 1..], k);
      assert q == q[..i] + [q[i]] + q[i + 1..];
    }
  }

  lemma SameReports(p: seq<Report>, q: seq<Report>)
    requires multiset(p) == multiset(q)
    ensures forall r :: r in p <==> r in q
  {
    forall r: Report ensures r in p <==> r in q {
      assert r in p <==> r in multiset(p);
      assert r in q <==> r in multiset(q);
    }
  }

  /** What reports say about a key in all does not depend on their order. */
  lemma TotalsPermute(p: seq<Report>, q: seq<Report>, k: Key)
    requires multiset(p) == multiset(q)
    ensures AllMentions(p, k) == [] <==> AllMentions(q, k) == []
    ensures Total(AllMentions(p, k)) == Total(AllMentions(q, k))
  {
    hide AllMentions, Mentions, Ran, Amount;
    SameReports(p, q);
    MentionsByReport(p, k);
    MentionsByReport(q, k);
    AmountPermutes(p, q, k);
  }

  ghost predicate DeclaredBy(reports: seq<Report>, site: Site) {
    exists r :: r in reports && Declares(None, r, site) != []
  }

  lemma {:induction false} DeclaredByReport(reports: seq<Report>, site: Site)
    ensures AllDeclare(reports, site) != [] <==> DeclaredBy(reports, site)
  {
    hide Declares;
    if reports != [] {
      assert reports[0] in reports;
      assert forall r :: r in reports <==> r == reports[0] || r in reports[1..];
      DeclaredByReport(reports[1..], site);
    }
  }

  /** Reading succeeds exactly when it succeeds for each report alone, and adds up their sources. */
  lemma {:induction false} ReadAllEach(c: Counters, reports: seq<Report>)
    ensures ReadAll(c, reports).Ok? <==> forall r :: r in reports ==> ReadReport(EMPTY, r).Ok?
    ensures ReadAll(c, reports).Ok? ==>
              forall s :: s in ReadAll(c, reports).value.sources <==>
                s in c.sources || exists r :: r in reports && s in ReadReport(EMPTY, r).value.sources
    decreases |reports|
  {
    hide ReadReport, AddCounts;
    if reports != [] {
      var first, rest := reports[0], reports[1..];
      assert forall r :: r in reports <==> r == first || r in rest;
      ReportAdds(c, first);
      if ReadReport(c, first).Ok? {
        ReadAllEach(ReadReport(c, first).value, rest);
      }
    }
  }

  /** The order of the reports decides neither whether they merge, nor a count, nor which sources and
      functions the merged counters hold. */
  lemma OrderChangesNothing(p: seq<Report>, q: seq<Report>)
    requires multiset(p) == multiset(q)
    ensures Merge(p).Ok? <==> Merge(q).Ok?
    ensures ReadAll(EMPTY, p).Ok? <==> ReadAll(EMPTY, q).Ok?
    ensures ReadAll(EMPTY, p).Ok? ==>
              var a, b := ReadAll(EMPTY, p).value, ReadAll(EMPTY, q).value;
              a.counts == b.counts && a.sources == b.sources && a.functions.Keys == b.functions.Keys
  {
    hide ReadAll, ReadReport, AllMentions, AllDeclare, Declares, Print, Total;
    SameReports(p, q);
    ReadAllEach(EMPTY, p);
    ReadAllEach(EMPTY, q);
    if ReadAll(EMPTY, p).Ok? {
      var a, b := ReadAll(EMPTY, p).value, ReadAll(EMPTY, q).value;
      forall k: Key ensures (k in a.counts <==> k in b.counts) && (k in a.counts ==> a.counts[k] == b.counts[k]) {
        CountsAreSums(p, k);
        CountsAreSums(q, k);
        TotalsPermute(p, q, k);
      }
      assert a.counts == b.counts;
      forall site: Site ensures site in a.functions <==> site in b.functions {
        FunctionsAreFirst(p, site);
        FunctionsAreFirst(q, site);
        DeclaredByReport(p, site);
        DeclaredByReport(q, site);
      }
      assert a.functions.Keys == b.functions.Keys;
    }
  }

  /** Reports that are read are merged exactly if every function that a line counts has its line in a record of the
      same source. */
  lemma MergesExactly(reports: seq<Report>)
    requires ReadAll(EMPTY, reports).Ok?
    ensures Merge(reports).Ok? <==>
      forall source, name :: AllMentions(reports, HitsKey(source, name)) != [] ==>
        AllDeclare(reports, Site(source, name)) != []
    ensures Merge(reports).Err? ==> Merge(reports).error == UnknownFunction
  {
    var c := ReadAll(EMPTY, reports).value;
    forall source, name
      ensures HitsKey(source, name) in c.counts <==> AllMentions(reports, HitsKey(source, name)) != []
      ensures Site(source, name) in c.functions <==> AllDeclare(reports, Site(source, name)) != []
    {
      CountsAreSums(reports, HitsKey(source, name));
      FunctionsAreFirst(reports, Site(source, name));
    }
    hide ReadAll, AllMentions, AllDeclare, Print;
    if !Known(c) {
      var k :| k in c.counts && k.HitsKey? && Site(k.source, k.name) !in c.functions;
      assert k == HitsKey(k.source, k.name);
    }
  }
}
