/**
 The union of every producer's line counters, and which producer covers which line. A producer's dictionaries
 by file and line are one dictionary by both, beside the set of its files.
 */
module FullUnion {

  datatype Spot = Spot(path: string, number: int)

  /** One producer's report: the files it names, the hits of each line, and how many counters it left out
      because they had wrapped. */
  datatype Contribution = Contribution(producer: string, mode: string, files: set<string>, hits: map<Spot, nat>,
      wrapped: nat)

  datatype Lines = Lines(files: nat, executable: nat, covered: nat, exclusive: nat, beyondOrdinary: nat)

  datatype ModeLines = ModeLines(covered: nat, beyondOrdinary: nat)

  datatype Totals = Totals(full: Lines, beyond: Lines, executableBeyondOrdinary: nat, wrapped: nat)

  const NO_LINES := Lines(0, 0, 0, 0, 0)

  predicate Covers(c: Contribution, s: Spot) {
    s in c.hits && c.hits[s] > 0
  }

  // ----- The union -----

  function Covered(c: Contribution): set<Spot> {
    set s | s in c.hits && Covers(c, s)
  }

  ghost function HitsIn(cs: seq<Contribution>, s: Spot): nat {
    if cs == [] then 0
    else HitsIn(cs[..|cs| - 1], s) + (if s in cs[|cs| - 1].hits then cs[|cs| - 1].hits[s] else 0)
  }

  /** How many contributions cover a line. */
  ghost function Coverers(cs: seq<Contribution>, s: Spot): nat {
    if cs == [] then 0
    else Coverers(cs[..|cs| - 1], s) + (if Covers(cs[|cs| - 1], s) then 1 else 0)
  }

  ghost function Executable(cs: seq<Contribution>): set<Spot> {
    set i, s | 0 <= i < |cs| && s in cs[i].hits :: s
  }

  ghost function Files(cs: seq<Contribution>): set<string> {
    set i, f | 0 <= i < |cs| && f in cs[i].files :: f
  }

  /** The lines some contribution covers. */
  ghost function CoveredBySome(cs: seq<Contribution>): set<Spot> {
    set i, s | 0 <= i < |cs| && s in Covered(cs[i]) :: s
  }

  /** Every line's counters, summed. */
  ghost function Full(cs: seq<Contribution>): map<Spot, nat> {
    map s | s in Executable(cs) :: HitsIn(cs, s)
  }

  // ----- Attribution -----

  ghost function Exclusive(cs: seq<Contribution>, i: nat): set<Spot>
    requires i < |cs|
  {
    set s | s in Covered(cs[i]) && Coverers(cs, s) == 1
  }

  ghost function Beyond(cs: seq<Contribution>, i: nat, ordinary: nat): set<Spot>
    requires i < |cs| && ordinary < |cs|
  {
    if i == ordinary then {} else Covered(cs[i]) - Covered(cs[ordinary])
  }

  /** The section of a contribution in the report beyond the ordinary one: its own hits on its lines there. */
  ghost function Section(cs: seq<Contribution>, i: nat, ordinary: nat): map<Spot, nat>
    requires i < |cs| && ordinary < |cs|
  {
    map s | s in cs[i].hits && s in Beyond(cs, i, ordinary) :: cs[i].hits[s]
  }

  /** How many counters the contributions left out. */
  ghost function WrappedIn(cs: seq<Contribution>): nat {
    if cs == [] then 0 else WrappedIn(cs[..|cs| - 1]) + cs[|cs| - 1].wrapped
  }

  ghost function Shared(cs: seq<Contribution>): set<Spot> {
    set s | s in CoveredBySome(cs) && Coverers(cs, s) >= 2
  }

  ghost function Attribution(cs: seq<Contribution>, i: nat, ordinary: nat): Lines
    requires i < |cs| && ordinary < |cs|
  {
    Lines(|cs[i].files|, |cs[i].hits.Keys|, |Covered(cs[i])|, |Exclusive(cs, i)|, |Beyond(cs, i, ordinary)|)
  }

  ghost function ExclusiveSum(cs: seq<Contribution>, n: nat): nat
    requires n <= |cs|
  {
    if n == 0 then 0 else ExclusiveSum(cs, n - 1) + |Exclusive(cs, n - 1)|
  }

  // ----- What the union says of a line -----

  lemma {:induction false} CoverersCount(cs: seq<Contribution>, s: Spot)
    ensures Coverers(cs, s) >= 1 <==> exists i :: 0 <= i < |cs| && Covers(cs[i], s)
    ensures HitsIn(cs, s) > 0 <==> exists i :: 0 <= i < |cs| && Covers(cs[i], s)
  {
    if cs != [] {
      var init, last := cs[..|cs| - 1], cs[|cs| - 1];
      CoverersCount(init, s);
      assert forall i :: 0 <= i < |init| ==> init[i] == cs[i];
      if exists i :: 0 <= i < |cs| && Covers(cs[i], s) {
        var i :| 0 <= i < |cs| && Covers(cs[i], s);
        assert i < |init| ==> Covers(init[i], s);
      }
      if exists i :: 0 <= i < |init| && Covers(init[i], s) {
        var i :| 0 <= i < |init| && Covers(init[i], s);
        assert Covers(cs[i], s);
      }
    }
  }

  /** Hits and coverers are sums over the contributions. */
  lemma {:induction false} HitsAdd(a: seq<Contribution>, b: seq<Contribution>, s: Spot)
    ensures HitsIn(a + b, s) == HitsIn(a, s) + HitsIn(b, s)
    ensures Coverers(a + b, s) == Coverers(a, s) + Coverers(b, s)
    decreases |b|
  {
    if b == [] {
      assert a + b == a;
    } else {
      HitsAdd(a, b[..|b| - 1], s);
      assert (a + b)[..|a + b| - 1] == a + b[..|b| - 1];
    }
  }

  lemma HitsOfOne(c: Contribution, s: Spot)
    ensures HitsIn([c], s) == if s in c.hits then c.hits[s] else 0
    ensures Coverers([c], s) == if s in c.hits && c.hits[s] > 0 then 1 else 0
  {
    assert [c][..0] == [];
  }

  /** A line is covered in the union exactly when some contribution covers it. */
  lemma UnionCoversExactly(cs: seq<Contribution>, s: Spot)
    ensures s in Full(cs) && Full(cs)[s] > 0 <==> exists i :: 0 <= i < |cs| && Covers(cs[i], s)
    ensures s in CoveredBySome(cs) <==> exists i :: 0 <= i < |cs| && Covers(cs[i], s)
  {
    CoverersCount(cs, s);
    if exists i :: 0 <= i < |cs| && Covers(cs[i], s) {
      var i :| 0 <= i < |cs| && Covers(cs[i], s);
      assert s in Executable(cs) && s in Covered(cs[i]);
    }
  }

  lemma {:induction false} TwoCoverers(cs: seq<Contribution>, i: nat, j: nat, s: Spot)
    requires i < j < |cs| && Covers(cs[i], s) && Covers(cs[j], s)
    ensures Coverers(cs, s) >= 2
  {
    var init := cs[..|cs| - 1];
    if j == |cs| - 1 {
      CoverersCount(init, s);
      assert Covers(init[i], s);
    } else {
      TwoCoverers(init, i, j, s);
    }
  }

  // ----- The counts balance -----

  lemma Partition<T>(whole: set<T>, part: set<T>)
    requires part <= whole
    ensures |whole| == |part| + |whole - part|
  {
    assert whole == part + (whole - part);
  }

  /** The union covers what the ordinary report covers and what lies beyond it, and so for executable lines. */
  lemma OrdinaryAndBeyond(cs: seq<Contribution>, ordinary: nat)
    requires ordinary < |cs|
    ensures |CoveredBySome(cs)| == |Covered(cs[ordinary])| + |CoveredBySome(cs) - Covered(cs[ordinary])|
    ensures |Executable(cs)| == |cs[ordinary].hits.Keys| + |Executable(cs) - cs[ordinary].hits.Keys|
  {
    Partition(CoveredBySome(cs), Covered(cs[ordinary]));
    Partition(Executable(cs), cs[ordinary].hits.Keys);
  }

  /** What lies beyond the ordinary report is what the sections of its contributions list together; a section
      lists a line with the hits of its own contribution, all of them its covering ones. */
  lemma BeyondIsAttributed(cs: seq<Contribution>, ordinary: nat, s: Spot)
    requires ordinary < |cs|
    ensures s in CoveredBySome(cs) - Covered(cs[ordinary]) <==>
            exists i :: 0 <= i < |cs| && s in Section(cs, i, ordinary)
    ensures forall i :: 0 <= i < |cs| && s in Section(cs, i, ordinary) ==>
              s in cs[i].hits && Section(cs, i, ordinary)[s] == cs[i].hits[s] > 0 && !Covers(cs[ordinary], s)
  {
    if s in CoveredBySome(cs) - Covered(cs[ordinary]) {
      var i :| 0 <= i < |cs| && s in Covered(cs[i]);
      assert s in Section(cs, i, ordinary);
    }
  }

  ghost function ExclusiveTo(cs: seq<Contribution>, n: nat): set<Spot>
    requires n <= |cs|
  {
    set i, s | 0 <= i < n && s in Exclusive(cs, i) :: s
  }

  lemma {:induction false} ExclusiveAddsUp(cs: seq<Contribution>, n: nat)
    requires n <= |cs|
    ensures ExclusiveSum(cs, n) == |ExclusiveTo(cs, n)|
  {
    if n > 0 {
      ExclusiveAddsUp(cs, n - 1);
      var before, mine := ExclusiveTo(cs, n - 1), Exclusive(cs, n - 1);
      forall s | s in before && s in mine ensures false {
        var i :| 0 <= i < n - 1 && s in Exclusive(cs, i);
        TwoCoverers(cs, i, n - 1, s);
      }
      assert before !! mine;
      assert ExclusiveTo(cs, n) == before + mine;
    }
  }

  /** Every line the union covers is one contribution's alone or shared by two or more. */
  lemma ExclusiveAndShared(cs: seq<Contribution>)
    ensures ExclusiveSum(cs, |cs|) + |Shared(cs)| == |CoveredBySome(cs)|
  {
    ExclusiveAddsUp(cs, |cs|);
    var alone := ExclusiveTo(cs, |cs|);
    forall s ensures s in alone <==> s in CoveredBySome(cs) && Coverers(cs, s) == 1 {
      if s in CoveredBySome(cs) && Coverers(cs, s) == 1 {
        var i :| 0 <= i < |cs| && s in Covered(cs[i]);
        assert s in Exclusive(cs, i);
      }
    }
    forall s | s in CoveredBySome(cs) ensures Coverers(cs, s) >= 1 {
      UnionCoversExactly(cs, s);
      CoverersCount(cs, s);
    }
    assert Shared(cs) == CoveredBySome(cs) - alone;
    Partition(CoveredBySome(cs), alone);
  }
}
