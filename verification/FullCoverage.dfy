/** The whole union, filled step by step: the summed counters, each contribution's attribution, and the totals. */
module FullCoverage {
  import opened FullUnion
  import opened UnionCounts

  lemma AloneIsExclusive(cs: seq<Contribution>, i: nat)
    requires i < |cs|
    ensures Alone(CoverMap(cs), Covered(cs[i])) == Exclusive(cs, i)
  {
    hide Coverers;
    assert forall s :: s in Covered(cs[i]) ==> s in CoveredBySome(cs);
  }

  lemma HitsAreCovered(cs: seq<Contribution>)
    ensures Hit(Full(cs)) == CoveredBySome(cs) && Full(cs).Keys == Executable(cs)
  {
    hide HitsIn, Full, CoveredBySome;
    forall s ensures s in Hit(Full(cs)) <==> s in CoveredBySome(cs) {
      UnionCoversExactly(cs, s);
    }
    FullHasExecutable(cs);
  }

  lemma FullHasExecutable(cs: seq<Contribution>)
    ensures Full(cs).Keys == Executable(cs)
  {
  }

  function Lookup(sets: map<string, set<Spot>>, mode: string): set<Spot> {
    if mode in sets then sets[mode] else {}
  }

  lemma ModesGrow(cs: seq<Contribution>, n: nat, o: nat, mode: string)
    requires n < |cs| && o < |cs|
    ensures CoveredInMode(cs, n + 1, mode) ==
            if cs[n].mode == mode then CoveredInMode(cs, n, mode) + Covered(cs[n]) else CoveredInMode(cs, n, mode)
    ensures BeyondInMode(cs, n + 1, o, mode) ==
            if cs[n].mode == mode then BeyondInMode(cs, n, o, mode) + Beyond(cs, n, o) else BeyondInMode(cs, n, o, mode)
    ensures Modes(cs, n + 1) == Modes(cs, n) + {cs[n].mode}
  {
  }

  /** The sets by mode hold what the first `n` contributions cover, and what of it lies beyond. */
  ghost predicate ModesHold(cs: seq<Contribution>, n: nat, o: nat, covered: map<string, set<Spot>>,
                  beyond: map<string, set<Spot>>)
    requires n <= |cs| && o < |cs|
  {
    && covered.Keys == Modes(cs, n) && beyond.Keys == Modes(cs, n)
    && (forall mode :: Lookup(covered, mode) == CoveredInMode(cs, n, mode))
    && (forall mode :: Lookup(beyond, mode) == BeyondInMode(cs, n, o, mode))
  }

  lemma ModesNext(cs: seq<Contribution>, n: nat, o: nat, covered: map<string, set<Spot>>,
                  beyond: map<string, set<Spot>>)
    requires n < |cs| && o < |cs| && ModesHold(cs, n, o, covered, beyond)
    ensures var mode := cs[n].mode;
            ModesHold(cs, n + 1, o, covered[mode := Lookup(covered, mode) + Covered(cs[n])],
                      beyond[mode := Lookup(beyond, mode) + Beyond(cs, n, o)])
  {
    hide Covered, Beyond, CoveredInMode, BeyondInMode, Modes;
    var own := cs[n].mode;
    var moreCovered, moreBeyond := covered[own := Lookup(covered, own) + Covered(cs[n])],
        beyond[own := Lookup(beyond, own) + Beyond(cs, n, o)];
    forall mode
      ensures Lookup(moreCovered, mode) == CoveredInMode(cs, n + 1, mode) &&
              Lookup(moreBeyond, mode) == BeyondInMode(cs, n + 1, o, mode)
    {
      ModesGrow(cs, n, o, mode);
    }
    ModesGrow(cs, n, o, own);
  }

  ghost function ModeCounts(cs: seq<Contribution>, o: nat): map<string, ModeLines>
    requires o < |cs|
  {
    map mode | mode in Modes(cs, |cs|) :: ModeLines(|CoveredInMode(cs, |cs|, mode)|, |BeyondInMode(cs, |cs|, o, mode)|)
  }

  /** The first contribution that is the ordinary report. */
  method FindOrdinary(cs: seq<Contribution>) returns (o: nat)
    ensures if exists i :: 0 <= i < |cs| && cs[i].producer == ORDINARY_REPORT then IsOrdinary(cs, o) else o == |cs|
  {
    o := 0;
    while o < |cs| && cs[o].producer != ORDINARY_REPORT
      invariant 0 <= o <= |cs| && forall i :: 0 <= i < o ==> cs[i].producer != ORDINARY_REPORT
    {
      o := o + 1;
    }
  }

  class Coverage {
    const contributions: seq<Contribution>
    var full: map<Spot, nat>
    var files: set<string>
    var attributions: seq<Lines>
    var modes: map<string, ModeLines>
    var totals: Totals

    constructor (contributions: seq<Contribution>)
      ensures this.contributions == contributions && full == map[] && files == {} && modes == map[]
      ensures attributions == seq(|contributions|, i => NO_LINES)
    {
      this.contributions := contributions;
      full, files, modes, totals := map[], {}, map[], Totals(NO_LINES, NO_LINES, 0, 0);
      attributions := seq(|contributions|, i => NO_LINES);
    }

    method AttributeOne(coverers: map<Spot, nat>, n: nat, o: nat)
      returns (lines: Lines, covered: set<Spot>, beyond: set<Spot>)
      requires n < |contributions| && o < |contributions| && coverers == CoverMap(contributions)
      ensures lines == Attribution(contributions, n, o)
      ensures covered == Covered(contributions[n]) && beyond == Beyond(contributions, n, o)
    {
      hide CoverMap, Covered, Alone, Exclusive;
      lines, covered, beyond := Attribute(contributions[n], coverers, contributions[o], n == o);
      AloneIsExclusive(contributions, n);
    }

    /** Attribute every contribution's lines, and gather them by mode. */
    method AttributeAll(coverers: map<Spot, nat>, o: nat)
      returns (covered: map<string, set<Spot>>, beyond: map<string, set<Spot>>)
      requires o < |contributions| && coverers == CoverMap(contributions)
      modifies this`attributions
      ensures attributions == seq(|contributions|,
              i requires 0 <= i < |contributions| => Attribution(contributions, i, o))
      ensures ModesHold(contributions, |contributions|, o, covered, beyond)
    {
      hide CoverMap, Covered, Beyond, Attribution;
      covered, beyond := map[], map[];
      attributions := [];
      var n := 0;
      assert ModesHold(contributions, 0, o, covered, beyond);
      hide ModesHold;
      while n < |contributions|
        invariant 0 <= n <= |contributions|
        invariant attributions == seq(n, i requires 0 <= i < n => Attribution(contributions, i, o))
        invariant ModesHold(contributions, n, o, covered, beyond)
      {
        var c := contributions[n];
        var lines, mine, further := AttributeOne(coverers, n, o);
        ModesNext(contributions, n, o, covered, beyond);
        attributions := attributions + [lines];
        covered := covered[c.mode := Lookup(covered, c.mode) + mine];
        beyond := beyond[c.mode := Lookup(beyond, c.mode) + further];
        n := n + 1;
      }
    }

    /** Fill the union. Without an ordinary contribution only the counters are summed. */
    method Combine() returns (complete: bool)
      requires full == map[] && files == {} && modes == map[]
      modifies this
      ensures full == Full(contributions) && files == Files(contributions)
      ensures complete <==> exists i :: 0 <= i < |contributions| && contributions[i].producer == ORDINARY_REPORT
      ensures complete ==> exists o: nat ::
                && IsOrdinary(contributions, o)
                && attributions == seq(|contributions|,
                   i requires 0 <= i < |contributions| => Attribution(contributions, i, o))
                && modes == ModeCounts(contributions, o)
                && totals == TotalsOf(contributions, o)
      ensures !complete ==> attributions == old(attributions) && modes == map[] && totals == old(totals)
    {
      hide Full, CoverMap, ModesHold, Attribution, ModeCounts, Files, Hit, Paths, Covered, Executable, CoveredBySome;
      var coverers;
      full, files, coverers := SumAll(contributions);
      var o := FindOrdinary(contributions);
      if o == |contributions| {
        return false;
      }
      var covered, beyond := AttributeAll(coverers, o);
      CountModes(covered, beyond, o);
      totals := CountTotals(contributions, full, files, contributions[o]);
      HitsAreCovered(contributions);
      complete := true;
    }

    method CountModes(covered: map<string, set<Spot>>, beyond: map<string, set<Spot>>, ghost o: nat)
      requires o < |contributions| && ModesHold(contributions, |contributions|, o, covered, beyond) && modes == map[]
      modifies this`modes
      ensures modes == ModeCounts(contributions, o)
    {
      hide CoveredInMode, BeyondInMode;
      var rest := covered.Keys;
      while rest != {}
        invariant rest <= covered.Keys && modes.Keys == covered.Keys - rest
        invariant forall mode :: mode in modes ==>
                  modes[mode] == ModeLines(|Lookup(covered, mode)|, |Lookup(beyond, mode)|)
        decreases rest
      {
        var mode :| mode in rest;
        modes := modes[mode := ModeLines(|covered[mode]|, |beyond[mode]|)];
        rest := rest - {mode};
      }
    }
  }
}
