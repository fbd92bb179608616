/** The union as it is computed: loops over the contributions that fill dictionaries and raise counters. */
module UnionCounts {
  import opened FullUnion

  const ORDINARY_REPORT := "ordinary"

  // ----- What is computed -----

  ghost predicate IsOrdinary(cs: seq<Contribution>, o: nat) {
    o < |cs| && cs[o].producer == ORDINARY_REPORT && forall i :: 0 <= i < o ==> cs[i].producer != ORDINARY_REPORT
  }

  ghost function CoverMap(cs: seq<Contribution>): map<Spot, nat> {
    map s | s in CoveredBySome(cs) :: Coverers(cs, s)
  }

  /** The lines that the first `n` contributions of a mode cover. */
  ghost function CoveredInMode(cs: seq<Contribution>, n: nat, mode: string): set<Spot>
    requires n <= |cs|
  {
    set i, s | 0 <= i < n && cs[i].mode == mode && s in Covered(cs[i]) :: s
  }

  ghost function BeyondInMode(cs: seq<Contribution>, n: nat, o: nat, mode: string): set<Spot>
    requires n <= |cs| && o < |cs|
  {
    set i, s | 0 <= i < n && cs[i].mode == mode && s in Beyond(cs, i, o) :: s
  }

  ghost function Modes(cs: seq<Contribution>, n: nat): set<string>
    requires n <= |cs|
  {
    set i | 0 <= i < n :: cs[i].mode
  }

  ghost function BeyondOf(cs: seq<Contribution>, o: nat): set<Spot>
    requires o < |cs|
  {
    CoveredBySome(cs) - Covered(cs[o])
  }

  ghost function TotalsOf(cs: seq<Contribution>, o: nat): Totals
    requires o < |cs|
  {
    Totals(
      Lines(|Files(cs)|, |Executable(cs)|, |CoveredBySome(cs)|, 0, 0),
      Lines(|Paths(BeyondOf(cs, o))|, 0, |BeyondOf(cs, o)|, 0, 0),
      |Executable(cs) - cs[o].hits.Keys|,
      WrappedIn(cs))
  }

  /** The reported numbers balance. */
  lemma TotalsBalance(cs: seq<Contribution>, o: nat)
    requires o < |cs|
    ensures TotalsOf(cs, o).full.covered == Attribution(cs, o, o).covered + TotalsOf(cs, o).beyond.covered
    ensures TotalsOf(cs, o).full.executable ==
            Attribution(cs, o, o).executable + TotalsOf(cs, o).executableBeyondOrdinary
    ensures TotalsOf(cs, o).full.covered == ExclusiveSum(cs, |cs|) + |Shared(cs)|
  {
    OrdinaryAndBeyond(cs, o);
    ExclusiveAndShared(cs);
  }

  // ----- Summing -----

  function Get(hits: map<Spot, nat>, s: Spot): nat {
    if s in hits then hits[s] else 0
  }

  ghost function AddHits(a: map<Spot, nat>, b: map<Spot, nat>, spots: set<Spot>): map<Spot, nat> {
    map s | s in a.Keys + spots :: Get(a, s) + if s in spots then Get(b, s) else 0
  }

  ghost function AddCoverers(a: map<Spot, nat>, c: Contribution, spots: set<Spot>): map<Spot, nat> {
    map s | s in a.Keys + (spots * Covered(c)) :: Get(a, s) + if s in spots && Covers(c, s) then 1 else 0
  }

  lemma AddNone(full: map<Spot, nat>, coverers: map<Spot, nat>, c: Contribution)
    ensures AddHits(full, c.hits, {}) == full && AddCoverers(coverers, c, {}) == coverers
  {
  }

  lemma AddOneHit(a: map<Spot, nat>, b: map<Spot, nat>, spots: set<Spot>, s: Spot)
    requires s !in spots
    ensures var now := AddHits(a, b, spots);
            AddHits(a, b, spots + {s}) == now[s := Get(now, s) + Get(b, s)]
  {
  }

  lemma AddOneCoverer(a: map<Spot, nat>, c: Contribution, spots: set<Spot>, s: Spot)
    requires s !in spots
    ensures var now := AddCoverers(a, c, spots);
            AddCoverers(a, c, spots + {s}) == if Covers(c, s) then now[s := Get(now, s) + 1] else now
  {
  }

  /** Add one contribution's counters to the union, and one coverer to each line it covers. */
  method Sum(full: map<Spot, nat>, coverers: map<Spot, nat>, c: Contribution)
    returns (summed: map<Spot, nat>, counted: map<Spot, nat>)
    ensures summed == AddHits(full, c.hits, c.hits.Keys)
    ensures counted == AddCoverers(coverers, c, c.hits.Keys)
  {
    summed, counted := full, coverers;
    AddNone(full, coverers, c);
    hide AddHits, AddCoverers;
    var rest := c.hits.Keys;
    ghost var done := {};
    while rest != {}
      invariant done + rest == c.hits.Keys && done !! rest
      invariant summed == AddHits(full, c.hits, done)
      invariant counted == AddCoverers(coverers, c, done)
      decreases rest
    {
      var s :| s in rest;
      AddOneHit(full, c.hits, done, s);
      AddOneCoverer(coverers, c, done, s);
      summed := summed[s := Get(summed, s) + c.hits[s]];
      if c.hits[s] > 0 {
        counted := counted[s := Get(counted, s) + 1];
      }
      rest, done := rest - {s}, done + {s};
    }
  }

  lemma {:induction false} NeverHit(cs: seq<Contribution>, s: Spot)
    requires s !in Executable(cs)
    ensures HitsIn(cs, s) == 0
  {
    if cs != [] {
      assert forall i :: 0 <= i < |cs| ==> s !in cs[i].hits;
      NeverHit(cs[..|cs| - 1], s);
    }
  }

  lemma SetsGrow(cs: seq<Contribution>, c: Contribution)
    ensures Executable(cs + [c]) == Executable(cs) + c.hits.Keys
    ensures CoveredBySome(cs + [c]) == CoveredBySome(cs) + Covered(c)
    ensures Files(cs + [c]) == Files(cs) + c.files
  {
    hide Covered;
    var all := cs + [c];
    assert forall i :: 0 <= i < |cs| ==> all[i] == cs[i];
    assert all[|cs|] == c;
  }

  lemma FullGrows(cs: seq<Contribution>, c: Contribution)
    ensures AddHits(Full(cs), c.hits, c.hits.Keys) == Full(cs + [c])
  {
    hide Executable;
    var all := cs + [c];
    SetsGrow(cs, c);
    forall s: Spot ensures HitsIn(all, s) == Get(Full(cs), s) + Get(c.hits, s) {
      assert all[..|cs|] == cs;
      if s !in Executable(cs) {
        NeverHit(cs, s);
      }
    }
    hide HitsIn;
  }

  lemma CoverersGrow(cs: seq<Contribution>, c: Contribution, s: Spot)
    ensures Coverers(cs + [c], s) == Get(CoverMap(cs), s) + if Covers(c, s) then 1 else 0
  {
    assert (cs + [c])[..|cs|] == cs;
    UnionCoversExactly(cs, s);
    CoverersCount(cs, s);
  }

  lemma CoverMapGrows(cs: seq<Contribution>, c: Contribution)
    ensures AddCoverers(CoverMap(cs), c, c.hits.Keys) == CoverMap(cs + [c])
  {
    hide CoveredBySome, Coverers;
    SetsGrow(cs, c);
    assert c.hits.Keys * Covered(c) == Covered(c);
    forall s: Spot ensures Coverers(cs + [c], s) == Get(CoverMap(cs), s) + if Covers(c, s) then 1 else 0 {
      CoverersGrow(cs, c, s);
    }
    assert forall s :: Covers(c, s) ==> s in c.hits.Keys;
  }

  /** The union's counters and files, and how many contributions cover each line. */
  method SumAll(cs: seq<Contribution>) returns (full: map<Spot, nat>, files: set<string>, coverers: map<Spot, nat>)
    ensures full == Full(cs) && files == Files(cs) && coverers == CoverMap(cs)
  {
    full, files, coverers := map[], {}, map[];
    assert full == Full(cs[..0]) && coverers == CoverMap(cs[..0]);
    hide Full, CoverMap, AddHits, AddCoverers;
    var i := 0;
    while i < |cs|
      invariant 0 <= i <= |cs|
      invariant full == Full(cs[..i]) && coverers == CoverMap(cs[..i])
      invariant files == Files(cs[..i])
    {
      assert cs[..i + 1] == cs[..i] + [cs[i]];
      FullGrows(cs[..i], cs[i]);
      CoverMapGrows(cs[..i], cs[i]);
      full, coverers := Sum(full, coverers, cs[i]);
      SetsGrow(cs[..i], cs[i]);
      files := files + cs[i].files;
      i := i + 1;
    }
    assert cs[..i] == cs;
  }

  // ----- Counting -----

  /** What is counted of a line. */
  datatype Property =
    | Anything
    | IsCovered(c: Contribution)
    | IsAlone(c: Contribution, coverers: map<Spot, nat>)
    | IsBeyond(c: Contribution, ordinary: Contribution)
    | IsHit(full: map<Spot, nat>)
    | IsHitBeyond(full: map<Spot, nat>, ordinary: Contribution)
    | IsNew(ordinary: Contribution)

  ghost predicate Has(p: Property, s: Spot) {
    match p
    case Anything => true
    case IsCovered(c) => Covers(c, s)
    case IsAlone(c, coverers) => Covers(c, s) && Get(coverers, s) == 1
    case IsBeyond(c, ordinary) => Covers(c, s) && !Covers(ordinary, s)
    case IsHit(full) => Get(full, s) > 0
    case IsHitBeyond(full, ordinary) => Get(full, s) > 0 && !Covers(ordinary, s)
    case IsNew(ordinary) => s !in ordinary.hits
  }

  /** Those of the lines that have a property. */
  ghost function Where(spots: set<Spot>, p: Property): set<Spot> {
    set s | s in spots && Has(p, s)
  }

  ghost function Count(spots: set<Spot>, p: Property): nat {
    |Where(spots, p)|
  }

  lemma CountNext(spots: set<Spot>, s: Spot, p: Property)
    requires s !in spots
    ensures Where(spots + {s}, p) == if Has(p, s) then Where(spots, p) + {s} else Where(spots, p)
    ensures Count(spots + {s}, p) == Count(spots, p) + if Has(p, s) then 1 else 0
  {
    assert Where(spots + {s}, p) == if Has(p, s) then Where(spots, p) + {s} else Where(spots, p);
  }

  function Alone(coverers: map<Spot, nat>, spots: set<Spot>): set<Spot> {
    set s | s in spots && Get(coverers, s) == 1
  }

  /** The counts over the lines gone through. */
  ghost function Tallied(c: Contribution, coverers: map<Spot, nat>, ordinary: Contribution, isOrdinary: bool,
                  done: set<Spot>): Lines {
    Lines(|c.files|, Count(done, Anything), Count(done, IsCovered(c)), Count(done, IsAlone(c, coverers)),
          if isOrdinary then 0 else Count(done, IsBeyond(c, ordinary)))
  }

  lemma TallyNext(c: Contribution, coverers: map<Spot, nat>, ordinary: Contribution, isOrdinary: bool,
                  done: set<Spot>, s: Spot)
    requires s !in done
    ensures var lines := Tallied(c, coverers, ordinary, isOrdinary, done);
            Tallied(c, coverers, ordinary, isOrdinary, done + {s}) ==
            Lines(
              lines.files,
              lines.executable + 1,
              lines.covered + (if Covers(c, s) then 1 else 0),
              lines.exclusive + (if Covers(c, s) && Get(coverers, s) == 1 then 1 else 0),
              lines.beyondOrdinary + (if Covers(c, s) && !isOrdinary && !Covers(ordinary, s) then 1 else 0))
  {
    hide Count;
    CountNext(done, s, Anything);
    CountNext(done, s, IsCovered(c));
    CountNext(done, s, IsAlone(c, coverers));
    CountNext(done, s, IsBeyond(c, ordinary));
  }

  lemma TallyNone(c: Contribution, coverers: map<Spot, nat>, ordinary: Contribution, isOrdinary: bool)
    ensures Tallied(c, coverers, ordinary, isOrdinary, {}) == Lines(|c.files|, 0, 0, 0, 0)
  {
  }

  lemma TallyAll(c: Contribution, coverers: map<Spot, nat>, ordinary: Contribution, isOrdinary: bool)
    ensures Where(c.hits.Keys, IsCovered(c)) == Covered(c)
    ensures Where(c.hits.Keys, IsBeyond(c, ordinary)) == Covered(c) - Covered(ordinary)
    ensures Tallied(c, coverers, ordinary, isOrdinary, c.hits.Keys) ==
            Lines(|c.files|, |c.hits.Keys|, |Covered(c)|, |Alone(coverers, Covered(c))|,
                  if isOrdinary then 0 else |Covered(c) - Covered(ordinary)|)
  {
    assert Where(c.hits.Keys, Anything) == c.hits.Keys;
    assert Where(c.hits.Keys, IsCovered(c)) == Covered(c);
    assert Where(c.hits.Keys, IsAlone(c, coverers)) == Alone(coverers, Covered(c));
    assert Where(c.hits.Keys, IsBeyond(c, ordinary)) == Covered(c) - Covered(ordinary);
  }

  /** What was counted and gathered over the lines gone through. */
  ghost predicate Gone(c: Contribution, coverers: map<Spot, nat>, ordinary: Contribution, isOrdinary: bool,
                  done: set<Spot>,
                       lines: Lines, covered: set<Spot>, beyond: set<Spot>)
  {
    && lines == Tallied(c, coverers, ordinary, isOrdinary, done)
    && covered == Where(done, IsCovered(c))
    && beyond == if isOrdinary then {} else Where(done, IsBeyond(c, ordinary))
  }

  /** Count one line of a contribution. */
  method AttributeLine(c: Contribution, coverers: map<Spot, nat>, ordinary: Contribution, isOrdinary: bool, s: Spot,
                       ghost done: set<Spot>, before: Lines, coveredBefore: set<Spot>, beyondBefore: set<Spot>)
    returns (lines: Lines, covered: set<Spot>, beyond: set<Spot>)
    requires s in c.hits && s !in done
    requires Gone(c, coverers, ordinary, isOrdinary, done, before, coveredBefore, beyondBefore)
    ensures Gone(c, coverers, ordinary, isOrdinary, done + {s}, lines, covered, beyond)
  {
    hide Tallied, Where, Count;
    TallyNext(c, coverers, ordinary, isOrdinary, done, s);
    CountNext(done, s, IsCovered(c));
    CountNext(done, s, IsBeyond(c, ordinary));
    lines, covered, beyond := before.(executable := before.executable + 1), coveredBefore, beyondBefore;
    if c.hits[s] == 0 {
      return;
    }
    lines, covered := lines.(covered := lines.covered + 1), covered + {s};
    if Get(coverers, s) == 1 {
      lines := lines.(exclusive := lines.exclusive + 1);
    }
    if !isOrdinary && !Covers(ordinary, s) {
      lines, beyond := lines.(beyondOrdinary := lines.beyondOrdinary + 1), beyond + {s};
    }
  }

  lemma NoneGone(c: Contribution, coverers: map<Spot, nat>, ordinary: Contribution, isOrdinary: bool)
    ensures Gone(c, coverers, ordinary, isOrdinary, {}, Lines(|c.files|, 0, 0, 0, 0), {}, {})
  {
    TallyNone(c, coverers, ordinary, isOrdinary);
  }

  lemma AllGone(c: Contribution, coverers: map<Spot, nat>, ordinary: Contribution, isOrdinary: bool,
                lines: Lines, covered: set<Spot>, beyond: set<Spot>)
    requires Gone(c, coverers, ordinary, isOrdinary, c.hits.Keys, lines, covered, beyond)
    ensures covered == Covered(c)
    ensures beyond == if isOrdinary then {} else Covered(c) - Covered(ordinary)
    ensures lines == Lines(|c.files|, |c.hits.Keys|, |covered|, |Alone(coverers, covered)|, |beyond|)
  {
    hide Tallied, Where, Covered, Alone;
    TallyAll(c, coverers, ordinary, isOrdinary);
  }

  /** One contribution's lines: how many it covers, alone or beyond the ordinary report, and which. */
  method Attribute(c: Contribution, coverers: map<Spot, nat>, ordinary: Contribution, isOrdinary: bool)
    returns (lines: Lines, covered: set<Spot>, beyond: set<Spot>)
    ensures covered == Covered(c)
    ensures beyond == if isOrdinary then {} else Covered(c) - Covered(ordinary)
    ensures lines == Lines(|c.files|, |c.hits.Keys|, |covered|, |Alone(coverers, covered)|, |beyond|)
  {
    hide *;
    lines, covered, beyond := Lines(|c.files|, 0, 0, 0, 0), {}, {};
    NoneGone(c, coverers, ordinary, isOrdinary);
    var rest := c.hits.Keys;
    ghost var done: set<Spot> := {};
    while rest != {}
      invariant done + rest == c.hits.Keys && done !! rest
      invariant Gone(c, coverers, ordinary, isOrdinary, done, lines, covered, beyond)
      decreases rest
    {
      var s :| s in rest;
      lines, covered, beyond := AttributeLine(c, coverers, ordinary, isOrdinary, s, done, lines, covered, beyond);
      rest, done := rest - {s}, done + {s};
    }
    assert done == c.hits.Keys;
    AllGone(c, coverers, ordinary, isOrdinary, lines, covered, beyond);
  }

  function Paths(spots: set<Spot>): set<string> {
    set s | s in spots :: s.path
  }

  function Hit(full: map<Spot, nat>): set<Spot> {
    set s | s in full && full[s] > 0
  }

  lemma NextPath(spots: set<Spot>, s: Spot)
    ensures Paths(spots + {s}) == Paths(spots) + {s.path}
  {
  }

  /** The counts of the union's lines gone through. */
  datatype Progress = Progress(executable: nat, covered: nat, beyond: nat, added: nat)

  ghost function Counted(full: map<Spot, nat>, ordinary: Contribution, done: set<Spot>): Progress {
    Progress(Count(done, Anything), Count(done, IsHit(full)), Count(done, IsHitBeyond(full, ordinary)),
        Count(done, IsNew(ordinary)))
  }

  /** Count one line of the union. */
  method CountLine(full: map<Spot, nat>, ordinary: Contribution, s: Spot, ghost done: set<Spot>, before: Progress)
    returns (counted: Progress, goesBeyond: bool)
    requires s in full && s !in done && before == Counted(full, ordinary, done)
    ensures counted == Counted(full, ordinary, done + {s})
    ensures goesBeyond == Has(IsHitBeyond(full, ordinary), s)
  {
    hide Count;
    CountNext(done, s, Anything);
    CountNext(done, s, IsHit(full));
    CountNext(done, s, IsHitBeyond(full, ordinary));
    CountNext(done, s, IsNew(ordinary));
    counted, goesBeyond := before.(executable := before.executable + 1), false;
    if s !in ordinary.hits {
      counted := counted.(added := counted.added + 1);
    }
    if full[s] == 0 {
      return;
    }
    counted := counted.(covered := counted.covered + 1);
    if !Covers(ordinary, s) {
      counted, goesBeyond := counted.(beyond := counted.beyond + 1), true;
    }
  }

  lemma CountedNone(full: map<Spot, nat>, ordinary: Contribution)
    ensures Counted(full, ordinary, {}) == Progress(0, 0, 0, 0)
    ensures Paths(Where({}, IsHitBeyond(full, ordinary))) == {}
  {
    assert forall p :: Where({}, p) == {};
  }

  lemma CountedAll(full: map<Spot, nat>, ordinary: Contribution)
    ensures Where(full.Keys, IsHitBeyond(full, ordinary)) == Hit(full) - Covered(ordinary)
    ensures Counted(full, ordinary, full.Keys) ==
            Progress(|full.Keys|, |Hit(full)|, |Hit(full) - Covered(ordinary)|, |full.Keys - ordinary.hits.Keys|)
  {
    assert Where(full.Keys, Anything) == full.Keys;
    assert Where(full.Keys, IsHit(full)) == Hit(full);
    assert Where(full.Keys, IsHitBeyond(full, ordinary)) == Hit(full) - Covered(ordinary);
    assert Where(full.Keys, IsNew(ordinary)) == full.Keys - ordinary.hits.Keys;
  }

  /** The union's own counts, and those beyond the ordinary report. */
  method CountTotals(cs: seq<Contribution>, full: map<Spot, nat>, files: set<string>, ordinary: Contribution)
    returns (totals: Totals)
    ensures var beyond := Hit(full) - Covered(ordinary);
            totals == Totals(
              Lines(|files|, |full.Keys|, |Hit(full)|, 0, 0),
              Lines(|Paths(beyond)|, 0, |beyond|, 0, 0),
              |full.Keys - ordinary.hits.Keys|,
              WrappedIn(cs))
  {
    hide Where, Counted, Paths, Hit, Covered, Has;
    var counted := Progress(0, 0, 0, 0);
    var beyondFiles: set<string> := {};
    CountedNone(full, ordinary);
    var rest := full.Keys;
    ghost var done: set<Spot> := {};
    while rest != {}
      invariant done + rest == full.Keys && done !! rest
      invariant counted == Counted(full, ordinary, done)
      invariant beyondFiles == Paths(Where(done, IsHitBeyond(full, ordinary)))
      decreases rest
    {
      var s :| s in rest;
      var goesBeyond;
      counted, goesBeyond := CountLine(full, ordinary, s, done, counted);
      CountNext(done, s, IsHitBeyond(full, ordinary));
      if goesBeyond {
        NextPath(Where(done, IsHitBeyond(full, ordinary)), s);
        beyondFiles := beyondFiles + {s.path};
      }
      rest, done := rest - {s}, done + {s};
    }
    assert done == full.Keys;
    CountedAll(full, ordinary);
    var wrapped := CountWrapped(cs);
    totals := Totals(
      Lines(|files|, counted.executable, counted.covered, 0, 0), Lines(|beyondFiles|, 0, counted.beyond, 0, 0),
      counted.added, wrapped);
  }

  method CountWrapped(cs: seq<Contribution>) returns (wrapped: nat)
    ensures wrapped == WrappedIn(cs)
  {
    wrapped := 0;
    var i := 0;
    while i < |cs|
      invariant 0 <= i <= |cs| && wrapped == WrappedIn(cs[..i])
    {
      assert cs[..i + 1][..i] == cs[..i];
      wrapped, i := wrapped + cs[i].wrapped, i + 1;
    }
    assert cs[..i] == cs;
  }

  ghost function ListedOf(c: Contribution, ordinary: Contribution, done: set<Spot>): map<Spot, nat> {
    map s | s in c.hits && s in done && Covers(c, s) && !Covers(ordinary, s) :: c.hits[s]
  }

  lemma ListOne(c: Contribution, ordinary: Contribution, done: set<Spot>, s: Spot)
    requires s in c.hits && s !in done
    ensures var listed := ListedOf(c, ordinary, done);
            ListedOf(c, ordinary, done + {s}) ==
            if c.hits[s] > 0 && !Covers(ordinary, s) then listed[s := c.hits[s]] else listed
  {
  }

  /** A contribution's section of the report beyond the ordinary one, filled line by line. */
  method BeyondSection(cs: seq<Contribution>, i: nat, o: nat) returns (beyond: map<Spot, nat>)
    requires i < |cs| && o < |cs| && i != o
    ensures beyond == Section(cs, i, o)
  {
    var c, ordinary := cs[i], cs[o];
    assert ListedOf(c, ordinary, c.hits.Keys) == Section(cs, i, o);
    assert ListedOf(c, ordinary, {}) == map[];
    hide ListedOf, Section;
    beyond := map[];
    var rest := c.hits.Keys;
    ghost var done: set<Spot> := {};
    while rest != {}
      invariant done + rest == c.hits.Keys && done !! rest
      invariant beyond == ListedOf(c, ordinary, done)
      decreases rest
    {
      var s :| s in rest;
      ListOne(c, ordinary, done, s);
      if c.hits[s] > 0 && !Covers(ordinary, s) {
        beyond := beyond[s := c.hits[s]];
      }
      rest, done := rest - {s}, done + {s};
    }
    assert done == c.hits.Keys;
  }
}
