/**
 The laws of the merge: a printed report restores its counters, merging merged reports is merging them all,
 counts are sums and do not depend on the order of the reports.
 */
module LcovLaws {
  import opened Lcov
  import opened LcovMerge
  import opened Options

  // ----- What a record's lines add -----

  /** What the lines of a record of `s` add together. */
  ghost function Sum(s: string, lines: Report): Counters {
    if lines == [] then EMPTY else Add(Sum(s, lines[..|lines| - 1]), Unit(s, lines[|lines| - 1]))
  }

  ghost predicate AllBody(lines: Report) {
    forall i :: 0 <= i < |lines| ==> InBody(lines[i])
  }

  lemma {:induction false} BodyAdds(c: Counters, s: string, lines: Report)
    requires AllBody(lines)
    ensures Read(Reading(c, Some(s)), lines) == Ok(Reading(Add(c, Sum(s, lines)), Some(s)))
    decreases |lines|
  {
    hide Unit, Add;
    if lines == [] {
      AddNothing(c);
    } else {
      var init, last := lines[..|lines| - 1], lines[|lines| - 1];
      BodyAdds(c, s, init);
      assert lines == init + [last];
      ReadConcat(Reading(c, Some(s)), init, [last]);
      AddAssociates(c, Sum(s, init), Unit(s, last));
      assert [last][1..] == [];
    }
  }

  lemma {:induction false} SumConcat(s: string, a: Report, b: Report)
    ensures Sum(s, a + b) == Add(Sum(s, a), Sum(s, b))
    decreases |b|
  {
    hide Unit, Add;
    if b == [] {
      assert a + b == a;
      AddNothing(Sum(s, a));
    } else {
      var init, last := b[..|b| - 1], b[|b| - 1];
      assert (a + b)[..|a + b| - 1] == a + init;
      SumConcat(s, a, init);
      AddAssociates(Sum(s, a), Sum(s, init), Unit(s, last));
    }
  }

  lemma SumLast(s: string, lines: Report, last: Line)
    ensures Sum(s, lines + [last]) == Add(Sum(s, lines), Unit(s, last))
  {
    assert (lines + [last])[..|lines|] == lines;
  }

  ghost predicate Fit(k: Key, s: string, counts: map<Key, Option<int>>) {
    k.source == s && k in counts && (counts[k] == None ==> k.BranchKey?)
  }

  ghost function Picked(counts: map<Key, Option<int>>, keys: seq<Key>): map<Key, Option<int>> {
    map k | k in counts && k in keys :: counts[k]
  }

  lemma PickLast(counts: map<Key, Option<int>>, keys: seq<Key>, last: Key)
    requires last !in keys && last in counts
    ensures AddCounts(Picked(counts, keys), map[last := counts[last]]) == Picked(counts, keys + [last])
  {
  }

  lemma CountLineUnit(s: string, counts: map<Key, Option<int>>, k: Key)
    requires Fit(k, s, counts)
    ensures Unit(s, CountLine(k, counts[k])) == Counters({}, map[], map[k := counts[k]])
  {
  }

  lemma {:induction false} CountLinesAdd(s: string, counts: map<Key, Option<int>>, keys: seq<Key>)
    requires forall k :: k in keys ==> k in counts
    requires Distinct(keys) && forall k :: k in keys ==> Fit(k, s, counts)
    ensures Sum(s, CountLines(counts, keys)) == Counters({}, map[], Picked(counts, keys))
    decreases |keys|
  {
    hide Unit, CountLine, AddCounts, Sum, Picked;
    if keys == [] {
      assert Picked(counts, []) == map[] && Sum(s, []) == EMPTY by {
        NothingAdds(s, counts);
      }
    } else {
      var init, last := keys[..|keys| - 1], keys[|keys| - 1];
      assert keys == init + [last];
      CountLinesAdd(s, counts, init);
      assert CountLines(counts, keys) == CountLines(counts, init) + [CountLine(last, counts[last])];
      SumLast(s, CountLines(counts, init), CountLine(last, counts[last]));
      CountLineUnit(s, counts, last);
      PickLast(counts, init, last);
    }
  }

  lemma NothingAdds(s: string, counts: map<Key, Option<int>>)
    ensures Picked(counts, []) == map[] && Sum(s, []) == EMPTY
  {
  }

  ghost function FunctionsAt(functions: map<Site, FunctionRecord>, keys: seq<Key>): map<Site, FunctionRecord> {
    map site | site in functions && HitsKey(site.source, site.name) in keys :: functions[site]
  }

  lemma FunctionLineUnit(s: string, f: FunctionRecord)
    requires Restorable(f)
    ensures Unit(s, f.ToLine()) == Counters({}, map[Site(s, f.name) := f], map[])
  {
    FunctionRoundTrip(f);
    hide ParseFunction;
  }

  lemma FunctionsLast(functions: map<Site, FunctionRecord>, keys: seq<Key>, site: Site)
    requires site in functions
    ensures map[site := functions[site]] + FunctionsAt(functions, keys)
         == FunctionsAt(functions, keys + [HitsKey(site.source, site.name)])
  {
  }

  lemma {:induction false} FunctionLinesAdd(s: string, functions: map<Site, FunctionRecord>, keys: seq<Key>)
    requires forall k :: k in keys ==> k.HitsKey? && k.source == s && Site(k.source, k.name) in functions
    requires forall site :: site in functions ==> functions[site].name == site.name && Restorable(functions[site])
    ensures Sum(s, FunctionLines(functions, keys)) == Counters({}, FunctionsAt(functions, keys), map[])
    decreases |keys|
  {
    hide Unit, Restorable, AddCounts, Sum, FunctionsAt;
    if keys == [] {
      assert FunctionsAt(functions, []) == map[] && Sum(s, []) == EMPTY by {
        NoFunctionsAdd(s, functions);
      }
    } else {
      var init, last := keys[..|keys| - 1], keys[|keys| - 1];
      assert keys == init + [last];
      FunctionLinesAdd(s, functions, init);
      var site := Site(s, last.name);
      var f := functions[site];
      assert FunctionLines(functions, keys) == FunctionLines(functions, init) + [f.ToLine()];
      SumLast(s, FunctionLines(functions, init), f.ToLine());
      FunctionLineUnit(s, f);
      FunctionsLast(functions, init, site);
      AddNothing(EMPTY);
    }
  }

  lemma NoFunctionsAdd(s: string, functions: map<Site, FunctionRecord>)
    ensures FunctionsAt(functions, []) == map[] && Sum(s, []) == EMPTY
  {
  }

  lemma SummaryAdds(s: string, x: Line, y: Line)
    requires x.Summary? && y.Summary?
    ensures Sum(s, [x, y]) == EMPTY
  {
    SumLast(s, [], x);
    SumLast(s, [x], y);
    assert [] + [x] == [x] && [x] + [y] == [x, y];
    AddNothing(EMPTY);
  }

  // ----- A printed report restores its counters -----

  /** The part of the counters that belongs to some sources. */
  ghost function Within(c: Counters, names: set<string>): Counters {
    Counters(
      c.sources * names,
      map site | site in c.functions && site.source in names :: c.functions[site],
      map k | k in c.counts && k.source in names :: c.counts[k])
  }

  ghost predicate Full(c: Counters) {
    Sound(c) && Known(c) && Counted(c)
  }

  lemma SumOfParts(s: string, a: Report, b: Report, c: Report, d: Report, e: Report, f: Report)
    ensures Sum(s, a + b + c + d + e + f) ==
            Add(Add(Add(Add(Add(Sum(s, a), Sum(s, b)), Sum(s, c)), Sum(s, d)), Sum(s, e)), Sum(s, f))
  {
    hide Sum, Add;
    SumConcat(s, a, b);
    SumConcat(s, a + b, c);
    SumConcat(s, a + b + c, d);
    SumConcat(s, a + b + c + d, e);
    SumConcat(s, a + b + c + d + e, f);
  }

  ghost function Listed(c: Counters, keys: seq<Key>): Counters {
    Counters({}, map[], Picked(c.counts, keys))
  }

  ghost function BranchPart(c: Counters, branches: seq<Key>): Report
    requires forall k :: k in branches ==> k in c.counts
  {
    if branches == [] then []
    else CountLines(c.counts, branches) + [Summary("BRF", |branches|), Summary("BRH", Taken(c.counts, branches))]
  }

  lemma BranchPartAdds(c: Counters, s: string)
    requires Full(c)
    ensures forall k :: k in BranchKeys(c, s) ==> k in c.counts
    ensures var branches := BranchKeys(c, s);
            var part := BranchPart(c, branches);
            AllBody(part) && Sum(s, part) == Listed(c, branches)
  {
    hide BranchKeys, Sum, AddCounts, Restorable, Taken;
    BranchKeysList(c, s);
    var branches := BranchKeys(c, s);
    NothingAdds(s, c.counts);
    hide Picked;
    if branches != [] {
      CountLinesAdd(s, c.counts, branches);
      var x, y := Summary("BRF", |branches|), Summary("BRH", Taken(c.counts, branches));
      SumConcat(s, CountLines(c.counts, branches), [x, y]);
      SummaryAdds(s, x, y);
      AddNothing(Listed(c, branches));
    }
  }

  lemma FunctionPartAdds(c: Counters, s: string)
    requires Full(c)
    ensures forall k :: k in HitsKeys(c, s) ==> k in c.counts && k.HitsKey? && Site(k.source, k.name) in c.functions
    ensures var hits := HitsKeys(c, s);
            && AllBody(FunctionLines(c.functions, hits)) && AllBody(CountLines(c.counts, hits))
            && Sum(s, FunctionLines(c.functions, hits)) == Counters({}, FunctionsAt(c.functions, hits), map[])
            && Sum(s, CountLines(c.counts, hits)) == Listed(c, hits)
  {
    hide HitsKeys, Sum, Restorable;
    HitsKeysList(c, s);
    var hits := HitsKeys(c, s);
    FunctionLinesAdd(s, c.functions, hits);
    CountLinesAdd(s, c.counts, hits);
  }

  lemma LinePartAdds(c: Counters, s: string)
    requires Full(c)
    ensures forall k :: k in LineKeys(c, s) ==> k in c.counts
    ensures AllBody(CountLines(c.counts, LineKeys(c, s)))
    ensures Sum(s, CountLines(c.counts, LineKeys(c, s))) == Listed(c, LineKeys(c, s))
  {
    hide LineKeys, Sum;
    LineKeysList(c, s);
    CountLinesAdd(s, c.counts, LineKeys(c, s));
  }

  /** A record's body adds its functions and their hits, then its branches, then its lines. */
  lemma BodyParts(c: Counters, s: string)
    requires Full(c)
    ensures AllBody(Body(c, s))
    ensures Sum(s, Body(c, s)) ==
            Add(Add(Add(Counters({}, FunctionsAt(c.functions, HitsKeys(c, s)), map[]), Listed(c, HitsKeys(c, s))),
                    Listed(c, BranchKeys(c, s))),
                Listed(c, LineKeys(c, s)))
  {
    hide HitsKeys, BranchKeys, LineKeys, Positive, Taken, Add, Sum, Sound, Known, Counted, Picked, FunctionsAt;
    FunctionPartAdds(c, s);
    BranchPartAdds(c, s);
    LinePartAdds(c, s);
    var hits, branches, lines := HitsKeys(c, s), BranchKeys(c, s), LineKeys(c, s);
    var part := BranchPart(c, branches);
    var fx, fy := Summary("FNF", |hits|), Summary("FNH", Positive(c.counts, hits));
    var lx, ly := Summary("LF", |lines|), Summary("LH", Positive(c.counts, lines));
    SummaryAdds(s, fx, fy);
    SummaryAdds(s, lx, ly);
    SumOfParts(s, FunctionLines(c.functions, hits), CountLines(c.counts, hits), [fx, fy], part,
        CountLines(c.counts, lines), [lx, ly]);
    assert Body(c, s) ==
           FunctionLines(c.functions, hits) + CountLines(c.counts, hits) + [fx, fy] + part
               + CountLines(c.counts, lines) + [lx, ly];
    var functions := Counters({}, FunctionsAt(c.functions, hits), map[]);
    AddNothing(Add(functions, Listed(c, hits)));
    AddNothing(Add(Add(Add(functions, Listed(c, hits)), Listed(c, branches)), Listed(c, lines)));
  }

  ghost predicate Lists(keys: seq<Key>, kind: Key -> bool, s: string, counts: map<Key, Option<int>>) {
    forall k :: k in keys <==> kind(k) && k.source == s && k in counts
  }

  lemma KindsMakeAll(counts: map<Key, Option<int>>, s: string, hits: seq<Key>, branches: seq<Key>, lines: seq<Key>)
    requires Lists(hits, (k: Key) => k.HitsKey?, s, counts)
    requires Lists(branches, (k: Key) => k.BranchKey?, s, counts)
    requires Lists(lines, (k: Key) => k.LineKey?, s, counts)
    ensures AddCounts(AddCounts(Picked(counts, hits), Picked(counts, branches)), Picked(counts, lines))
         == map k | k in counts && k.source in {s} :: counts[k]
  {
  }

  lemma FunctionsOfSource(c: Counters, s: string)
    ensures FunctionsAt(c.functions, HitsKeys(c, s)) == Within(c, {s}).functions
  {
    HitsKeysList(c, s);
    hide HitsKeys;
  }

  lemma CountsOfSource(c: Counters, s: string)
    requires Full(c)
    ensures AddCounts(AddCounts(Picked(c.counts, HitsKeys(c, s)), Picked(c.counts, BranchKeys(c, s))),
            Picked(c.counts, LineKeys(c, s)))
         == Within(c, {s}).counts
  {
    HitsKeysList(c, s);
    LineKeysList(c, s);
    BranchKeysList(c, s);
    hide HitsKeys, BranchKeys, LineKeys, AddCounts, Picked;
    assert Lists(HitsKeys(c, s), (k: Key) => k.HitsKey?, s, c.counts);
    KindsMakeAll(c.counts, s, HitsKeys(c, s), BranchKeys(c, s), LineKeys(c, s));
  }

  lemma PartsAssemble(f: map<Site, FunctionRecord>, h: map<Key, Option<int>>, b: map<Key, Option<int>>,
                  l: map<Key, Option<int>>)
    ensures Add(Add(Add(Counters({}, f, map[]), Counters({}, map[], h)), Counters({}, map[], b)),
            Counters({}, map[], l))
         == Counters({}, f, AddCounts(AddCounts(h, b), l))
  {
    assert AddCounts(map[], h) == h;
    hide AddCounts;
    assert map[] + f == f;
  }

  /** The body of a source's record adds everything the counters hold of that source. */
  lemma BodyRestores(c: Counters, s: string)
    requires Full(c)
    ensures AllBody(Body(c, s)) && Sum(s, Body(c, s)) == Within(c, {s}).(sources := {})
  {
    assert forall keys :: Listed(c, keys) == Counters({}, map[], Picked(c.counts, keys));
    assert Within(c, {s}).(sources := {}) == Counters({}, Within(c, {s}).functions, Within(c, {s}).counts);
    hide *;
    BodyParts(c, s);
    FunctionsOfSource(c, s);
    CountsOfSource(c, s);
    PartsAssemble(
      FunctionsAt(c.functions, HitsKeys(c, s)),
      Picked(c.counts, HitsKeys(c, s)), Picked(c.counts, BranchKeys(c, s)), Picked(c.counts, LineKeys(c, s)));
  }

  lemma RecordRestores(c: Counters, d: Counters, s: string)
    requires Full(c) && s in c.sources
    ensures Read(Reading(d, None), [Source(s)] + Body(c, s) + [EndOfRecord]) ==
            Ok(Reading(Add(d, Within(c, {s})), None))
  {
    hide Body, Sound, Known, Counted, Sum, AddCounts;
    BodyRestores(c, s);
    var body := Body(c, s);
    var begun := Reading(d.(sources := d.sources + {s}), Some(s));
    ReadConcat(Reading(d, None), [Source(s)] + body, [EndOfRecord]);
    ReadConcat(Reading(d, None), [Source(s)], body);
    assert [Source(s)][1..] == [] && [EndOfRecord][1..] == [];
    assert Read(Reading(d, None), [Source(s)]) == Ok(begun);
    BodyAdds(begun.counters, s, body);
    assert Add(begun.counters, Within(c, {s}).(sources := {})) == Add(d, Within(c, {s}));
  }

  lemma WithinGrows(c: Counters, names: set<string>, s: string)
    requires s !in names
    ensures Add(Within(c, names), Within(c, {s})) == Within(c, names + {s})
  {
    assert Add(Within(c, names), Within(c, {s})).counts == Within(c, names + {s}).counts;
    assert Add(Within(c, names), Within(c, {s})).functions == Within(c, names + {s}).functions;
  }

  lemma {:induction false} RecordsRestore(c: Counters, names: seq<string>)
    requires Full(c) && Distinct(names) && forall s :: s in names ==> s in c.sources
    ensures Read(Reading(EMPTY, None), Records(c, names)) == Ok(Reading(Within(c, set s | s in names), None))
    decreases |names|
  {
    hide Body, Sound, Known, Counted, Add, Read;
    if names == [] {
      NoneWithin(c);
      assert (set s | s in names) == {};
    } else {
      var init, last := names[..|names| - 1], names[|names| - 1];
      assert names == init + [last];
      RecordsRestore(c, init);
      ReadConcat(Reading(EMPTY, None), Records(c, init), [Source(last)] + Body(c, last) + [EndOfRecord]);
      RecordRestores(c, Within(c, (set s | s in init)), last);
      WithinGrows(c, (set s | s in init), last);
      assert (set s | s in names) == (set s | s in init) + {last};
    }
  }

  lemma NoneWithin(c: Counters)
    ensures Within(c, {}) == EMPTY && Read(Reading(EMPTY, None), []) == Ok(Reading(EMPTY, None))
  {
  }

  lemma CompleteIsFull(c: Counters)
    requires Sound(c) && Known(c)
    ensures Full(Complete(c)) && Within(Complete(c), c.sources) == Complete(c)
  {
    CompleteIsCounted(c);
    hide Restorable;
    assert Within(Complete(c), c.sources).counts == Complete(c).counts;
    assert Within(Complete(c), c.sources).functions == Complete(c).functions;
  }

  /** The printed report reads back as the counters it was printed from, every function now counted. */
  lemma PrintRestores(c: Counters)
    requires Sound(c) && Known(c)
    ensures ReadReport(EMPTY, Print(c)) == Ok(Complete(c))
  {
    hide Sound, Known, Full, Records, Read, Sources;
    CompleteIsFull(c);
    CompleteIsCounted(c);
    SourcesList(c);
    assert (set s | s in Sources(c)) == c.sources;
    RecordsRestore(Complete(c), Sources(c));
  }

  // ----- Merging merged reports -----

  lemma PrintOfComplete(c: Counters)
    ensures Print(Complete(c)) == Print(c)
  {
    assert Complete(Complete(c)).counts == Complete(c).counts;
    assert SourceRanks(Complete(c)) == SourceRanks(c);
  }

  lemma HitsKeysAdd(a: Counters, b: Counters)
    ensures HitsKeysOf(Add(a, b).functions.Keys) == HitsKeysOf(a.functions.Keys) + HitsKeysOf(b.functions.Keys)
  {
  }

  ghost function Filled(zeros: set<Key>, counts: map<Key, Option<int>>): map<Key, Option<int>> {
    (map k | k in zeros :: Some(0)) + counts
  }

  lemma FilledAt(zeros: set<Key>, counts: map<Key, Option<int>>, k: Key)
    ensures k in Filled(zeros, counts) <==> k in zeros || k in counts
    ensures k in zeros || k in counts ==> Filled(zeros, counts)[k] == if k in counts then counts[k] else Some(0)
  {
  }

  lemma AddedAt(a: map<Key, Option<int>>, b: map<Key, Option<int>>, k: Key)
    ensures k in AddCounts(a, b) <==> k in a || k in b
    ensures k in AddCounts(a, b) ==>
              AddCounts(a, b)[k] == if k !in b then a[k] else if k !in a then b[k] else Plus(a[k], b[k])
  {
  }

  lemma FilledAdds(x: set<Key>, y: set<Key>, a: map<Key, Option<int>>, b: map<Key, Option<int>>)
    requires forall k :: k in x + y ==> (k in a ==> a[k].Some?) && (k in b ==> b[k].Some?)
    ensures Filled(x + y, AddCounts(a, b)) == AddCounts(Filled(x, a), Filled(y, b))
  {
    hide Filled, AddCounts;
    var whole, parts := Filled(x + y, AddCounts(a, b)), AddCounts(Filled(x, a), Filled(y, b));
    forall k: Key ensures (k in whole <==> k in parts) && (k in whole ==> whole[k] == parts[k]) {
      FilledAt(x + y, AddCounts(a, b), k);
      FilledAt(x, a, k);
      FilledAt(y, b, k);
      AddedAt(a, b, k);
      AddedAt(Filled(x, a), Filled(y, b), k);
    }
  }

  lemma CompleteAdds(a: Counters, b: Counters)
    requires Sound(a) && Sound(b)
    ensures Complete(Add(a, b)) == Add(Complete(a), Complete(b))
  {
    hide Restorable, AddCounts;
    HitsKeysAdd(a, b);
    FilledAdds(HitsKeysOf(a.functions.Keys), HitsKeysOf(b.functions.Keys), a.counts, b.counts);
  }

  lemma KnownAdds(a: Counters, b: Counters)
    requires Known(a) && Known(b)
    ensures Known(Add(a, b))
  {
  }

  lemma CompleteIsKnown(c: Counters)
    requires Known(c)
    ensures Known(Complete(c))
  {
  }

  ghost function Flatten(groups: seq<seq<Report>>): seq<Report> {
    if groups == [] then [] else Flatten(groups[..|groups| - 1]) + groups[|groups| - 1]
  }

  ghost function Merged(groups: seq<seq<Report>>): seq<Report>
    requires forall g :: g in groups ==> Merge(g).Ok?
  {
    seq(|groups|, i requires 0 <= i < |groups| => Merge(groups[i]).value)
  }

  /** A merged report adds the completed counters of its inputs. */
  lemma MergedAdds(c: Counters, group: seq<Report>)
    requires Merge(group).Ok?
    ensures var g := ReadAll(EMPTY, group);
            && g.Ok? && Sound(g.value) && Known(g.value)
            && ReadReport(c, Merge(group).value) == Ok(Add(c, Complete(g.value)))
  {
    hide Print, ReadReport, Add, Restorable;
    AllKeepSound(EMPTY, group);
    var g := ReadAll(EMPTY, group).value;
    PrintRestores(g);
    ReportAdds(c, Print(g));
  }

  lemma {:induction false} GroupsAdd(groups: seq<seq<Report>>)
    requires forall g :: g in groups ==> Merge(g).Ok?
    ensures var all := ReadAll(EMPTY, Flatten(groups));
            && all.Ok? && Sound(all.value) && Known(all.value)
            && ReadAll(EMPTY, Merged(groups)) == Ok(Complete(all.value))
    decreases |groups|
  {
    hide Merge, ReadReport, Sound, Known, Add;
    if groups == [] {
      NothingIsSound();
      assert Merged(groups) == [];
    } else {
      var init, last := groups[..|groups| - 1], groups[|groups| - 1];
      GroupsAdd(init);
      var all, g := ReadAll(EMPTY, Flatten(init)).value, ReadAll(EMPTY, last);
      MergedAdds(Complete(all), last);
      ReadAllConcat(EMPTY, Flatten(init), last);
      ReadAllAdds(all, last);
      KnownAdds(all, g.value);
      AllKeepSound(EMPTY, Flatten(groups)) by {
        NothingIsSound();
      }
      CompleteAdds(all, g.value);
      assert Merged(groups) == Merged(init) + [Merge(last).value];
      ReadAllConcat(EMPTY, Merged(init), [Merge(last).value]);
      assert [Merge(last).value][1..] == [];
    }
  }

  lemma NothingIsSound()
    ensures Sound(EMPTY) && Known(EMPTY) && Complete(EMPTY) == EMPTY
  {
    assert Complete(EMPTY).counts == map[];
  }

  /** Merging merged reports writes the report that merging all their inputs at once writes. */
  lemma MergeOfMerged(groups: seq<seq<Report>>)
    requires forall g :: g in groups ==> Merge(g).Ok?
    ensures Merge(Merged(groups)).Ok? && Merge(Merged(groups)) == Merge(Flatten(groups))
  {
    hide Print, Complete, Sound, Known, ReadAll, Flatten;
    GroupsAdd(groups);
    var all := ReadAll(EMPTY, Flatten(groups)).value;
    CompleteIsKnown(all);
    PrintOfComplete(all);
  }
}
