/** What any log reports: the sum over its own binaries, and the outcomes their own lines give. */
module LibtestBinaries {
  import opened Libtest
  import opened Options

  /** A binary's run, after lines that start none: what it printed between its start and its result. */
  datatype Binary = Binary(gap: seq<Line>, body: seq<Line>, result: Line)

  /** A log: its binaries, the lines after the last of them, and what a last one printed that never finished. */
  datatype Log = Log(binaries: seq<Binary>, gap: seq<Line>, unfinished: Option<seq<Line>>)

  ghost predicate StartsNone(gap: seq<Line>) {
    forall i :: 0 <= i < |gap| ==> !gap[i].Running?
  }

  ghost predicate Valid(b: Binary) {
    StartsNone(b.gap) && WellNested(b.body) && b.result.Result?
  }

  ghost predicate ValidLog(log: Log) {
    && (forall b :: b in log.binaries ==> Valid(b))
    && StartsNone(log.gap)
    && (log.unfinished.Some? ==> Depth(0, log.unfinished.value).Some?)
  }

  ghost function Printed(bs: seq<Binary>): seq<Line> {
    if bs == [] then [] else bs[0].gap + ([Running] + bs[0].body + [bs[0].result]) + Printed(bs[1..])
  }

  ghost function Lines(log: Log): seq<Line> {
    Printed(log.binaries) + log.gap + if log.unfinished.Some? then [Running] + log.unfinished.value else []
  }

  // ----- Every sequence of lines is a log -----

  /** One more line: it starts a binary, ends the one in progress, or belongs where it stands. */
  ghost function Extended(log: Log, line: Line): Log {
    if log.unfinished == None then
      if line.Running? then log.(unfinished := Some([])) else log.(gap := log.gap + [line])
    else
      var body := log.unfinished.value;
      if line.Result? && WellNested(body) then Log(log.binaries + [Binary(log.gap, body, line)], [], None)
      else log.(unfinished := Some(body + [line]))
  }

  /** The log that lines make. */
  ghost function LogOf(lines: seq<Line>): Log {
    if lines == [] then Log([], [], None) else Extended(LogOf(lines[..|lines| - 1]), lines[|lines| - 1])
  }

  lemma {:induction false} PrintedConcat(bs: seq<Binary>, b: Binary)
    ensures Printed(bs + [b]) == Printed(bs) + (b.gap + ([Running] + b.body + [b.result]))
  {
    if bs == [] {
      assert [b][1..] == [] && bs + [b] == [b];
    } else {
      assert (bs + [b])[0] == bs[0] && (bs + [b])[1..] == bs[1..] + [b];
      PrintedConcat(bs[1..], b);
    }
  }

  lemma {:induction false} DepthConcat(open: nat, lines: seq<Line>, line: Line)
    requires Depth(open, lines).Some? && !(line.Result? && Depth(open, lines) == Some(0))
    ensures Depth(open, lines + [line]).Some?
    decreases |lines|
  {
    if lines == [] {
      assert lines + [line] == [line] && [line][1..] == [];
    } else {
      assert (lines + [line])[0] == lines[0] && (lines + [line])[1..] == lines[1..] + [line];
      DepthConcat(
        if lines[0].Running? then open + 1 else if lines[0].Result? then open - 1 else open, lines[1..], line);
    }
  }

  lemma ExtendedIsLog(log: Log, line: Line)
    requires ValidLog(log)
    ensures ValidLog(Extended(log, line)) && Lines(Extended(log, line)) == Lines(log) + [line]
  {
    if log.unfinished.Some? {
      var body := log.unfinished.value;
      if line.Result? && WellNested(body) {
        PrintedConcat(log.binaries, Binary(log.gap, body, line));
      } else {
        DepthConcat(0, body, line);
      }
    }
  }

  /** Whatever a log's lines are, its binaries and the rest spell them. */
  lemma {:induction false} EveryLogSplits(lines: seq<Line>)
    ensures ValidLog(LogOf(lines)) && Lines(LogOf(lines)) == lines
  {
    hide ValidLog, Lines, Extended;
    if lines == [] {
      EmptyLog();
    } else {
      var init, last := lines[..|lines| - 1], lines[|lines| - 1];
      EveryLogSplits(init);
      ExtendedIsLog(LogOf(init), last);
      assert lines == init + [last];
    }
  }

  lemma EmptyLog()
    ensures ValidLog(Log([], [], None)) && Lines(Log([], [], None)) == []
  {
  }

  // ----- Which tests are credited -----

  datatype Credit = Credit(name: string, outcome: Outcome)

  /** The lines of a run itself, without those of the runs inside it; `open` of these are in progress. */
  ghost function Own(open: nat, lines: seq<Line>): seq<Line>
    decreases |lines|
  {
    if lines == [] then []
    else if lines[0].Running? then Own(open + 1, lines[1..])
    else if lines[0].Result? then Own(if open == 0 then 0 else open - 1, lines[1..])
    else if open == 0 then [lines[0]] + Own(0, lines[1..])
    else Own(open, lines[1..])
  }

  /** The outcomes that a run's own lines give, each with the test it is credited to. */
  ghost function Credits(waiting: Option<string>, own: seq<Line>): seq<Credit>
    decreases |own|
  {
    if own == [] then [] else Said(waiting, own[0]) + Credits(Waiting(waiting, own[0]), own[1..])
  }

  /** The outcome a line gives, to the test it names or to the one that waits. */
  ghost function Said(waiting: Option<string>, line: Line): seq<Credit> {
    match line
    case Test(name, Some(outcome)) => [Credit(name, outcome)]
    case Word(outcome) => if waiting.Some? then [Credit(waiting.value, outcome)] else []
    case _ => []
  }

  /** The test that waits for its outcome after a line. */
  ghost function Waiting(waiting: Option<string>, line: Line): Option<string> {
    match line
    case Test(name, outcome) => if outcome == None then Some(name) else None
    case Word(_) => None
    case _ => waiting
  }

  ghost function WaitingAfter(waiting: Option<string>, own: seq<Line>): Option<string>
    decreases |own|
  {
    if own == [] then waiting else WaitingAfter(Waiting(waiting, own[0]), own[1..])
  }

  ghost function Apply(outcomes: map<string, Outcome>, credits: seq<Credit>): map<string, Outcome>
    decreases |credits|
  {
    if credits == [] then outcomes else Apply(outcomes[credits[0].name := credits[0].outcome], credits[1..])
  }

  lemma {:induction false} ApplyConcat(outcomes: map<string, Outcome>, a: seq<Credit>, b: seq<Credit>)
    ensures Apply(outcomes, a + b) == Apply(Apply(outcomes, a), b)
    decreases |a|
  {
    if a == [] {
      assert a + b == b;
    } else {
      assert (a + b)[1..] == a[1..] + b;
      ApplyConcat(outcomes[a[0].name := a[0].outcome], a[1..], b);
    }
  }

  /** A run's lines credit what its own lines credit. */
  lemma {:induction false} BodyCredits(s: State, lines: seq<Line>)
    requires s.depth >= 1 && Depth(s.depth - 1, lines).Some?
    ensures var own := Own(s.depth - 1, lines);
            Read(s, lines) == State(Apply(s.outcomes, Credits(s.waiting, own)), s.total,
                                    1 + Depth(s.depth - 1, lines).value, WaitingAfter(s.waiting, own))
    decreases |lines|
  {
    if lines != [] {
      var line, next := lines[0], Step(s, lines[0]);
      BodyCredits(next, lines[1..]);
      if s.depth == 1 && !line.Running? && !line.Result? {
        OwnLineCredits(s, line, Own(0, lines[1..]));
      }
    }
  }

  lemma LineCredits(s: State, line: Line)
    requires s.depth == 1 && !line.Running? && !line.Result?
    ensures Step(s, line) ==
            s.(outcomes := Apply(s.outcomes, Said(s.waiting, line)), waiting := Waiting(s.waiting, line))
  {
    var said := Said(s.waiting, line);
    assert said == [] || said[1..] == [];
  }

  /** One line of the run itself credits what it says. */
  lemma OwnLineCredits(s: State, line: Line, rest: seq<Line>)
    requires s.depth == 1 && !line.Running? && !line.Result?
    ensures var next := Step(s, line);
            && Apply(s.outcomes, Credits(s.waiting, [line] + rest)) == Apply(next.outcomes, Credits(next.waiting, rest))
            && WaitingAfter(s.waiting, [line] + rest) == WaitingAfter(next.waiting, rest)
            && next.total == s.total && next.depth == 1
  {
    var next, own := Step(s, line), [line] + rest;
    assert own[0] == line && own[1..] == rest;
    LineCredits(s, line);
    hide Step, Said, Waiting;
    ApplyConcat(s.outcomes, Said(s.waiting, line), Credits(next.waiting, rest));
  }

  // ----- What a log reports -----

  ghost function CountsOf(total: Option<Counts>, bs: seq<Binary>): Option<Counts>
    requires forall b :: b in bs ==> Valid(b)
    decreases |bs|
  {
    if bs == [] then total
    else
      assert Valid(bs[0]);
      CountsOf(Add(total, BinaryCounts(bs[0].result)), bs[1..])
  }

  ghost function OwnLines(bs: seq<Binary>): seq<seq<Line>> {
    seq(|bs|, i requires 0 <= i < |bs| => Own(0, bs[i].body))
  }

  /** The own lines of each of a log's binaries, the unfinished one last. */
  ghost function Owns(log: Log): seq<seq<Line>> {
    OwnLines(log.binaries) + if log.unfinished.Some? then [Own(0, log.unfinished.value)] else []
  }

  /** What binaries credit one after the other, a test that one leaves waiting still waiting in the next. */
  ghost function LogCredits(waiting: Option<string>, owns: seq<seq<Line>>): seq<Credit>
    decreases |owns|
  {
    if owns == [] then []
    else Credits(waiting, owns[0]) + LogCredits(WaitingAfter(waiting, owns[0]), owns[1..])
  }

  ghost function LogWaiting(waiting: Option<string>, owns: seq<seq<Line>>): Option<string>
    decreases |owns|
  {
    if owns == [] then waiting else LogWaiting(WaitingAfter(waiting, owns[0]), owns[1..])
  }

  lemma {:induction false} LogCreditsConcat(waiting: Option<string>, a: seq<seq<Line>>, own: seq<Line>)
    ensures LogCredits(waiting, a + [own]) == LogCredits(waiting, a) + Credits(LogWaiting(waiting, a), own)
    decreases |a|
  {
    hide Credits, WaitingAfter;
    if a == [] {
      assert a + [own] == [own] && [own][1..] == [];
    } else {
      assert (a + [own])[0] == a[0] && (a + [own])[1..] == a[1..] + [own];
      LogCreditsConcat(WaitingAfter(waiting, a[0]), a[1..], own);
    }
  }

  lemma {:induction false} GapChangesNothing(s: State, gap: seq<Line>)
    requires s.depth == 0 && StartsNone(gap)
    ensures Read(s, gap) == s
    decreases |gap|
  {
    if gap != [] {
      assert Step(s, gap[0]) == s;
      GapChangesNothing(s, gap[1..]);
    }
  }

  lemma BinaryIsRead(s: State, b: Binary)
    requires s.depth == 0 && Valid(b)
    ensures var own := Own(0, b.body);
            Read(s, b.gap + ([Running] + b.body + [b.result])) ==
            State(Apply(s.outcomes, Credits(s.waiting, own)), Add(s.total, BinaryCounts(b.result)), 0,
                WaitingAfter(s.waiting, own))
  {
    hide Own, Credits, WaitingAfter, Apply, Depth;
    GapChangesNothing(s, b.gap);
    ReadConcat(s, b.gap, [Running] + b.body + [b.result]);
    ReadConcat(s, [Running] + b.body, [b.result]);
    ReadConcat(s, [Running], b.body);
    assert [Running][1..] == [] && [b.result][1..] == [];
    BodyCredits(s.(depth := 1), b.body);
  }

  lemma {:induction false} BinariesAreRead(s: State, bs: seq<Binary>)
    requires s.depth == 0 && forall b :: b in bs ==> Valid(b)
    ensures var owns := OwnLines(bs);
            Read(s, Printed(bs)) ==
            State(Apply(s.outcomes, LogCredits(s.waiting, owns)), CountsOf(s.total, bs), 0, LogWaiting(s.waiting, owns))
    decreases |bs|
  {
    hide Own, Credits, WaitingAfter, Valid;
    if bs != [] {
      var b, rest := bs[0], bs[1..];
      var lines, own := b.gap + ([Running] + b.body + [b.result]), Own(0, b.body);
      BinaryIsRead(s, b);
      ReadConcat(s, lines, Printed(rest));
      BinariesAreRead(Read(s, lines), rest);
      assert OwnLines(bs)[0] == own && OwnLines(bs)[1..] == OwnLines(rest);
      ApplyConcat(s.outcomes, Credits(s.waiting, own), LogCredits(WaitingAfter(s.waiting, own), OwnLines(rest)));
    }
  }

  /** What follows the last result line: nothing that counts, then what an unfinished binary credits. */
  lemma RestIsRead(s: State, log: Log)
    requires s.depth == 0 && ValidLog(log)
    ensures var r := Read(s, log.gap + if log.unfinished.Some? then [Running] + log.unfinished.value else []);
            && r.total == s.total
            && r.outcomes == Apply(s.outcomes,
                 if log.unfinished.Some? then Credits(s.waiting, Own(0, log.unfinished.value)) else [])
  {
    hide Own, Credits, WaitingAfter, Depth;
    GapChangesNothing(s, log.gap);
    if log.unfinished.Some? {
      var body := log.unfinished.value;
      ReadConcat(s, log.gap, [Running] + body);
      ReadConcat(s, [Running], body);
      assert [Running][1..] == [];
      BodyCredits(s.(depth := 1), body);
    } else {
      assert log.gap + [] == log.gap;
    }
  }

  lemma LogIsRead(log: Log)
    requires ValidLog(log)
    ensures ReportOf(Lines(log)) == Report(Apply(map[], LogCredits(None, Owns(log))), CountsOf(None, log.binaries))
  {
    hide Own, Credits, WaitingAfter, Depth;
    var bs, owns := log.binaries, OwnLines(log.binaries);
    var tail := log.gap + if log.unfinished.Some? then [Running] + log.unfinished.value else [];
    BinariesAreRead(START, bs);
    RestIsRead(Read(START, Printed(bs)), log);
    ReadConcat(START, Printed(bs), tail);
    assert Lines(log) == Printed(bs) + tail;
    if log.unfinished.Some? {
      var own := Own(0, log.unfinished.value);
      LogCreditsConcat(None, owns, own);
      ApplyConcat(map[], LogCredits(None, owns), Credits(LogWaiting(None, owns), own));
    } else {
      assert Owns(log) == owns;
    }
  }

  /** Every log, also one that goes on after its last result or whose last binary never finished, reports the
      sum of its own binaries' results and the outcomes that its binaries' own lines credit. */
  lemma ReportIsSum(lines: seq<Line>)
    ensures var log := LogOf(lines);
            && ValidLog(log) && Lines(log) == lines
            && ReportOf(lines) == Report(Apply(map[], LogCredits(None, Owns(log))), CountsOf(None, log.binaries))
  {
    EveryLogSplits(lines);
    LogIsRead(LogOf(lines));
  }

  // ----- Tests left waiting -----

  /** The first line that names a test or holds an outcome holds an outcome. */
  ghost predicate OutcomeFirst(own: seq<Line>)
    decreases |own|
  {
    own != [] && (own[0].Word? || (!own[0].Test? && OutcomeFirst(own[1..])))
  }

  /** A test left waiting by an earlier binary takes one outcome of this one, exactly if an outcome comes
      before any test. */
  lemma {:induction false} LeftWaiting(name: string, own: seq<Line>)
    ensures |Credits(Some(name), own)| == |Credits(None, own)| + if OutcomeFirst(own) then 1 else 0
    ensures !OutcomeFirst(own) ==> Credits(Some(name), own) == Credits(None, own)
    ensures OutcomeFirst(own) ==> Credits(Some(name), own)[0].name == name
    decreases |own|
  {
    if own != [] && !own[0].Test? && !own[0].Word? {
      LeftWaiting(name, own[1..]);
    }
  }

  ghost function AloneCredits(owns: seq<seq<Line>>): seq<Credit>
    decreases |owns|
  {
    if owns == [] then [] else Credits(None, owns[0]) + AloneCredits(owns[1..])
  }

  /** No binary that a test was left waiting for begins with an outcome. */
  ghost predicate NothingLeaks(waiting: Option<string>, owns: seq<seq<Line>>)
    decreases |owns|
  {
    owns != [] ==>
      && (waiting == None || !OutcomeFirst(owns[0]))
      && NothingLeaks(WaitingAfter(waiting, owns[0]), owns[1..])
  }

  lemma {:induction false} LeaksAreSeen(waiting: Option<string>, owns: seq<seq<Line>>)
    ensures |LogCredits(waiting, owns)| >= |AloneCredits(owns)|
    ensures LogCredits(waiting, owns) == AloneCredits(owns) <==> NothingLeaks(waiting, owns)
    ensures |LogCredits(waiting, owns)| == |AloneCredits(owns)| ==> NothingLeaks(waiting, owns)
    decreases |owns|
  {
    hide Credits, WaitingAfter, OutcomeFirst;
    if owns != [] {
      LeaksAreSeen(WaitingAfter(waiting, owns[0]), owns[1..]);
      if waiting.Some? {
        LeftWaiting(waiting.value, owns[0]);
      }
    }
  }

  /** A log credits what its binaries credit alone, exactly when no outcome leaks to an earlier binary's test;
      and then those are the outcomes it reports. */
  lemma BinariesStayApart(lines: seq<Line>)
    ensures var owns := Owns(LogOf(lines));
            && (LogCredits(None, owns) == AloneCredits(owns) <==> NothingLeaks(None, owns))
            && (NothingLeaks(None, owns) ==> ReportOf(lines).outcomes == Apply(map[], AloneCredits(owns)))
  {
    LeaksAreSeen(None, Owns(LogOf(lines)));
    ReportIsSum(lines);
  }

  lemma NextLine(lines: seq<Line>, line: Line)
    ensures LogOf(lines + [line]) == Extended(LogOf(lines), line)
  {
    assert (lines + [line])[..|lines|] == lines;
  }

  /** A run of one line. */
  lemma ShortRun(before: seq<Line>, line: Line, result: Line)
    requires LogOf(before).unfinished == None && LogOf(before).gap == []
    requires result.Result? && !line.Running? && !line.Result?
    ensures LogOf(before + [Running] + [line] + [result]) ==
            Log(LogOf(before).binaries + [Binary([], [line], result)], [], None)
  {
    NextLine(before, Running);
    NextLine(before + [Running], line);
    NextLine(before + [Running] + [line], result);
    hide LogOf;
    assert [line][1..] == [] && [] + [line] == [line];
    assert Depth(0, [line][1..]) == Some(0);
    assert WellNested([line]);
  }

  const UNANSWERED := [Running, Test("first", None), Result(0, 1, 0, 0, 0)]

  const ANSWERED := [Running, Word(Passed), Result(0, 0, 0, 0, 0)]

  /** A test that never got its outcome takes that of the next binary, which names no test at all. */
  lemma OutcomeMayLeak()
    ensures ReportOf(UNANSWERED + ANSWERED).outcomes == map["first" := Passed]
    ensures AloneCredits(Owns(LogOf(UNANSWERED + ANSWERED))) == []
    ensures !NothingLeaks(None, Owns(LogOf(UNANSWERED + ANSWERED)))
  {
    var lines := UNANSWERED + ANSWERED;
    hide LogOf, ReportOf, Owns;
    LeakyLog();
    ReportIsSum(lines);
    TwoOwns(Test("first", None), Word(Passed), LogOf(lines));
    TwoCredits([Test("first", None)], [Word(Passed)]);
    hide *;
  }

  lemma LeakyLog()
    ensures LogOf(UNANSWERED + ANSWERED) ==
            Log([Binary([], [Test("first", None)], Result(0, 1, 0, 0, 0)),
                 Binary([], [Word(Passed)], Result(0, 0, 0, 0, 0))], [], None)
  {
    NothingLogged();
    hide LogOf;
    ShortRun([], Test("first", None), Result(0, 1, 0, 0, 0));
    assert [] + [Running] + [Test("first", None)] + [Result(0, 1, 0, 0, 0)] == UNANSWERED;
    ShortRun(UNANSWERED, Word(Passed), Result(0, 0, 0, 0, 0));
    assert UNANSWERED + [Running] + [Word(Passed)] + [Result(0, 0, 0, 0, 0)] == UNANSWERED + ANSWERED;
  }

  lemma NothingLogged()
    ensures LogOf([]) == Log([], [], None)
  {
  }

  lemma TwoOwns(a: Line, b: Line, log: Log)
    requires !a.Running? && !a.Result? && !b.Running? && !b.Result?
    requires |log.binaries| == 2 && log.binaries[0].body == [a] && log.binaries[1].body == [b] && log.unfinished == None
    ensures Owns(log) == [[a], [b]]
  {
    assert [a][1..] == [] && [b][1..] == [];
    assert Own(0, [a]) == [a] && Own(0, [b]) == [b];
  }

  lemma TwoCredits(test: seq<Line>, word: seq<Line>)
    requires test == [Test("first", None)] && word == [Word(Passed)]
    ensures AloneCredits([test, word]) == [] && !NothingLeaks(None, [test, word])
    ensures Apply(map[], LogCredits(None, [test, word])) == map["first" := Passed]
  {
    var first := Some("first");
    assert [test, word][1..] == [word] && [word][1..] == [];
    OneLine(None, test[0]);
    OneLine(first, word[0]);
    OneLine(None, word[0]);
    hide Credits, WaitingAfter;
    var credits := Credits(first, word);
    assert credits[1..] == [];
    assert LogCredits(None, [test, word]) == Credits(None, test) + LogCredits(first, [word]);
    assert LogCredits(first, [word]) == credits + LogCredits(WaitingAfter(first, word), [word][1..]) == credits;
    assert AloneCredits([word]) == Credits(None, word) + AloneCredits([word][1..]) == [];
    assert !NothingLeaks(first, [word]);
  }

  lemma OneLine(waiting: Option<string>, line: Line)
    ensures Credits(waiting, [line]) == Said(waiting, line) && WaitingAfter(waiting, [line]) == Waiting(waiting, line)
  {
    assert [line][1..] == [];
    assert Credits(Waiting(waiting, line), []) == [];
  }
}
