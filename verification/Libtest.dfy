/**
 Reading the output of libtest binaries, in which a test's own child process may write a whole run of its own.
 A line is already told apart by its kind.
 */
module Libtest {
  import opened Options

  datatype Outcome = Passed | Ignored | Failed

  /** `Test` names a test, with its outcome if it stands on the same line; `Word` begins with an outcome. */
  datatype Line =
    | Running
    | Result(passed: nat, failed: nat, ignored: nat, measured: nat, filtered: nat)
    | Test(name: string, outcome: Option<Outcome>)
    | Word(word: Outcome)
    | Other

  datatype Counts = Counts(discovered: nat, selected: nat, executed: nat, completed: nat) {
    function Plus(other: Counts): Counts {
      Counts(
        discovered + other.discovered,
        selected + other.selected,
        executed + other.executed,
        completed + other.completed)
    }

    ghost predicate Narrows() {
      discovered >= selected >= executed >= completed
    }
  }

  function BinaryCounts(r: Line): Counts
    requires r.Result?
  {
    Counts(
      r.passed + r.failed + r.ignored + r.measured + r.filtered,
      r.passed + r.failed + r.ignored + r.measured,
      r.passed + r.failed + r.measured,
      r.passed + r.measured)
  }

  /** `depth` counts the runs in progress, and `waiting` is a test named without its outcome. */
  datatype State = State(outcomes: map<string, Outcome>, total: Option<Counts>, depth: nat, waiting: Option<string>)

  const START := State(map[], None, 0, None)

  function Add(total: Option<Counts>, binary: Counts): Option<Counts> {
    Some(if total == None then binary else total.value.Plus(binary))
  }

  function Step(s: State, line: Line): State {
    if line.Running? then s.(depth := s.depth + 1)
    else if line.Result? then
      s.(total := if s.depth == 1 then Add(s.total, BinaryCounts(line)) else s.total,
         depth := if s.depth > 0 then s.depth - 1 else 0)
    else if s.depth != 1 then s
    else if line.Test? then
      if line.outcome == None then s.(waiting := Some(line.name))
      else s.(outcomes := s.outcomes[line.name := line.outcome.value], waiting := None)
    else if s.waiting.Some? && line.Word? then s.(outcomes := s.outcomes[s.waiting.value := line.word], waiting := None)
    else s
  }

  function Read(s: State, lines: seq<Line>): State
    decreases |lines|
  {
    if lines == [] then s else Read(Step(s, lines[0]), lines[1..])
  }

  datatype Report = Report(outcomes: map<string, Outcome>, counts: Option<Counts>)

  function ReportOf(lines: seq<Line>): Report {
    Report(Read(START, lines).outcomes, Read(START, lines).total)
  }

  /** The report as it is read, line by line. */
  method ReadReport(lines: seq<Line>) returns (report: Report)
    ensures report == ReportOf(lines)
  {
    var outcomes: map<string, Outcome> := map[];
    var total: Option<Counts>, depth: nat, waiting: Option<string> := None, 0, None;
    var i := 0;
    while i < |lines|
      invariant 0 <= i <= |lines|
      invariant Read(START, lines) == Read(State(outcomes, total, depth, waiting), lines[i..])
    {
      var line := lines[i];
      assert lines[i..][0] == line && lines[i..][1..] == lines[i + 1..];
      i := i + 1;
      if line.Running? {
        depth := depth + 1;
        continue;
      }
      if line.Result? {
        if depth == 1 {
          var binary := BinaryCounts(line);
          total := if total == None then Some(binary) else Some(total.value.Plus(binary));
        }
        if depth > 0 {
          depth := depth - 1;
        }
        continue;
      }
      if depth != 1 {
        continue;
      }
      if line.Test? {
        if line.outcome == None {
          waiting := Some(line.name);
        } else {
          outcomes, waiting := outcomes[line.name := line.outcome.value], None;
        }
        continue;
      }
      if waiting.Some? && line.Word? {
        outcomes, waiting := outcomes[waiting.value := line.word], None;
      }
    }
    report := Report(outcomes, total);
  }

  lemma {:induction false} ReadConcat(s: State, a: seq<Line>, b: seq<Line>)
    ensures Read(s, a + b) == Read(Read(s, a), b)
    decreases |a|
  {
    if a == [] {
      assert a + b == b;
    } else {
      assert (a + b)[1..] == a[1..] + b;
      ReadConcat(Step(s, a[0]), a[1..], b);
    }
  }

  // ----- Nested runs -----

  /** How many runs are open after the lines, if none of them closes more than `open` and the lines opened. */
  ghost function Depth(open: nat, lines: seq<Line>): Option<nat>
    decreases |lines|
  {
    if lines == [] then Some(open)
    else if lines[0].Running? then Depth(open + 1, lines[1..])
    else if lines[0].Result? then if open == 0 then None else Depth(open - 1, lines[1..])
    else Depth(open, lines[1..])
  }

  ghost predicate WellNested(lines: seq<Line>) {
    Depth(0, lines) == Some(0)
  }

  /** A whole run: its start, its lines with any runs they hold, and its result. */
  ghost predicate IsRun(lines: seq<Line>) {
    |lines| >= 2 && lines[0].Running? && lines[|lines| - 1].Result? && WellNested(lines[1..|lines| - 1])
  }

  /** Below the first run, lines change nothing but the depth. */
  lemma {:induction false} DeepLinesChangeNothing(s: State, base: nat, lines: seq<Line>)
    requires 2 <= base <= s.depth && Depth(s.depth - base, lines).Some?
    ensures Read(s, lines) == s.(depth := base + Depth(s.depth - base, lines).value)
    decreases |lines|
  {
    if lines != [] {
      DeepLinesChangeNothing(Step(s, lines[0]), base, lines[1..]);
    }
  }

  lemma RunChangesNothing(s: State, run: seq<Line>)
    requires s.depth >= 1 && IsRun(run)
    ensures Read(s, run) == s
  {
    var inner, last := run[1..|run| - 1], run[|run| - 1];
    assert run == [run[0]] + (inner + [last]);
    var started := Step(s, run[0]);
    ReadConcat(started, inner, [last]);
    DeepLinesChangeNothing(started, started.depth, inner);
    assert run[1..] == inner + [last] && [last][1..] == [];
  }

  /** Inserting or removing a whole run anywhere inside a run in progress changes nothing of the report. */
  lemma NestedRunsAreErased(before: seq<Line>, run: seq<Line>, after: seq<Line>)
    requires Read(START, before).depth >= 1 && IsRun(run)
    ensures ReportOf(before + run + after) == ReportOf(before + after)
  {
    hide Step;
    ReadConcat(START, before + run, after);
    ReadConcat(START, before, run);
    ReadConcat(START, before, after);
    RunChangesNothing(Read(START, before), run);
  }

  /** Whatever was read, no more tests are selected than discovered, executed than selected, or completed
      than executed. */
  lemma {:induction false} CountsNarrow(s: State, lines: seq<Line>)
    requires s.total.Some? ==> s.total.value.Narrows()
    ensures Read(s, lines).total.Some? ==> Read(s, lines).total.value.Narrows()
    decreases |lines|
  {
    if lines != [] {
      CountsNarrow(Step(s, lines[0]), lines[1..]);
    }
  }

  lemma ReportNarrows(lines: seq<Line>)
    ensures ReportOf(lines).counts.Some? ==> ReportOf(lines).counts.value.Narrows()
  {
    CountsNarrow(START, lines);
  }

  // ----- What the counts add up -----

  datatype Field = PassedTests | FailedTests | IgnoredTests | MeasuredTests | FilteredTests

  ghost function Sum(results: seq<Line>, field: Field): nat
    requires forall i :: 0 <= i < |results| ==> results[i].Result?
  {
    if results == [] then 0
    else
      var last := results[|results| - 1];
      Sum(results[..|results| - 1], field) +
        match field
        case PassedTests => last.passed
        case FailedTests => last.failed
        case IgnoredTests => last.ignored
        case MeasuredTests => last.measured
        case FilteredTests => last.filtered
  }

  /** The runs open after the lines; a result too many closes none. */
  ghost function OpenRuns(lines: seq<Line>): nat {
    if lines == [] then 0
    else
      var open, last := OpenRuns(lines[..|lines| - 1]), lines[|lines| - 1];
      if last.Running? then open + 1 else if last.Result? && open > 0 then open - 1 else open
  }

  /** The result lines of the binaries themselves: those that close the one open run. */
  ghost function BinaryResults(lines: seq<Line>): (results: seq<Line>)
    ensures forall i :: 0 <= i < |results| ==> results[i].Result?
  {
    if lines == [] then []
    else
      var init, last := lines[..|lines| - 1], lines[|lines| - 1];
      BinaryResults(init) + if last.Result? && OpenRuns(init) == 1 then [last] else []
  }

  lemma ReadLast(lines: seq<Line>, last: Line)
    ensures Read(START, lines + [last]) == Step(Read(START, lines), last)
  {
    ReadConcat(START, lines, [last]);
    assert [last][1..] == [];
  }

  /** The report's counts are sums over the binaries' result lines: completed tests passed or were measured, executed
      ones may also have failed, selected ones been ignored and discovered ones filtered out. */
  lemma {:induction false} CountsAddUp(lines: seq<Line>)
    ensures Read(START, lines).depth == OpenRuns(lines)
    ensures var results, counts := BinaryResults(lines), ReportOf(lines).counts;
      && (counts == None <==> results == [])
      && (counts.Some? ==>
           && counts.value.completed == Sum(results, PassedTests) + Sum(results, MeasuredTests)
           && counts.value.executed == counts.value.completed + Sum(results, FailedTests)
           && counts.value.selected == counts.value.executed + Sum(results, IgnoredTests)
           && counts.value.discovered == counts.value.selected + Sum(results, FilteredTests))
  {
    if lines != [] {
      var init, last := lines[..|lines| - 1], lines[|lines| - 1];
      assert lines == init + [last];
      CountsAddUp(init);
      ReadLast(init, last);
      ResultsLast(init, last);
      hide Read, BinaryResults, Sum, OpenRuns;
      NothingSums();
      if last.Result? && OpenRuns(init) == 1 {
        SumLast(BinaryResults(init), last);
      }
    } else {
      NothingSums();
    }
  }

  lemma NothingSums()
    ensures forall field :: Sum([], field) == 0
  {
  }

  lemma ResultsLast(init: seq<Line>, last: Line)
    ensures BinaryResults(init + [last]) ==
            if last.Result? && OpenRuns(init) == 1 then BinaryResults(init) + [last] else BinaryResults(init)
    ensures OpenRuns(init + [last]) ==
            if last.Running? then OpenRuns(init) + 1
            else if last.Result? && OpenRuns(init) > 0 then OpenRuns(init) - 1 else OpenRuns(init)
  {
    assert (init + [last])[..|init|] == init;
    assert BinaryResults(init) + [] == BinaryResults(init);
  }

  lemma SumLast(results: seq<Line>, last: Line)
    requires last.Result? && forall i :: 0 <= i < |results| ==> results[i].Result?
    ensures var more := results + [last];
      && Sum(more, PassedTests) == Sum(results, PassedTests) + last.passed
      && Sum(more, FailedTests) == Sum(results, FailedTests) + last.failed
      && Sum(more, IgnoredTests) == Sum(results, IgnoredTests) + last.ignored
      && Sum(more, MeasuredTests) == Sum(results, MeasuredTests) + last.measured
      && Sum(more, FilteredTests) == Sum(results, FilteredTests) + last.filtered
  {
    assert (results + [last])[..|results|] == results;
  }
}
