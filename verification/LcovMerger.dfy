/** The merge as it goes over the lines, keeping a dictionary of counts and the record that is open. */
module LcovMerger {
  import opened Lcov
  import opened LcovMerge
  import opened Options

  /** Add one line of an open record to the counters. */
  method Count(c: Counters, source: string, line: Line) returns (counted: Counters)
    requires InBody(line)
    ensures counted == Add(c, Unit(source, line))
  {
    var functions, counts := c.functions, c.counts;
    match line {
      case Fn(start, rest) =>
        var f := ParseFunction(start, rest);
        if Site(source, f.name) !in functions {
          functions := functions[Site(source, f.name) := f];
        }
      case Fnda(hits, name) =>
        counts := Raise(counts, HitsKey(source, name), hits);
      case Da(number, hits) =>
        counts := Raise(counts, LineKey(source, number), hits);
      case Brda(number, block, branch, taken) =>
        var k := BranchKey(source, number, block, branch);
        if taken.Some? {
          counts := Raise(counts, k, taken.value);
        } else if k !in counts {
          counts := counts[k := None];
        }
      case _ =>
    }
    counted := Counters(c.sources, functions, counts);
    assert functions == Add(c, Unit(source, line)).functions;
    assert counts == Add(c, Unit(source, line)).counts;
  }

  method Raise(counts: map<Key, Option<int>>, k: Key, hits: int) returns (raised: map<Key, Option<int>>)
    ensures raised == AddCounts(counts, map[k := Some(hits)])
  {
    if k in counts && counts[k].Some? {
      raised := counts[k := Some(counts[k].value + hits)];
    } else {
      raised := counts[k := Some(hits)];
    }
  }

  method ReadLines(c: Counters, report: Report) returns (result: Result<Counters>)
    ensures result == ReadReport(c, report)
  {
    var read := c;
    var current: Option<string> := None;
    var i := 0;
    while i < |report|
      invariant 0 <= i <= |report|
      invariant Read(Reading(c, None), report) == Read(Reading(read, current), report[i..])
    {
      var line := report[i];
      assert report[i..][0] == line && report[i..][1..] == report[i + 1..];
      if line.EndOfRecord? {
        if current == None {
          return Err(EndOutsideRecord);
        }
        current := None;
      } else if line.Source? {
        if current.Some? {
          return Err(RecordNotEnded);
        }
        read, current := read.(sources := read.sources + {line.source}), Some(line.source);
      } else if !line.Blank? {
        if current == None {
          return Err(LineOutsideRecord);
        }
        if !InBody(line) {
          return Err(Unsupported);
        }
        read := Count(read, current.value, line);
      }
      i := i + 1;
    }
    result := if current.Some? then Err(LastRecordNotEnded) else Ok(read);
  }

  method Write(c: Counters) returns (lines: Report)
    ensures lines == Print(c)
  {
    hide Body, Complete, Sources, Counted;
    CompleteIsCounted(c);
    var full, sources := Complete(c), Sources(c);
    lines := [];
    var i := 0;
    while i < |sources|
      invariant 0 <= i <= |sources|
      invariant lines == Records(full, sources[..i])
    {
      assert sources[..i + 1][..i] == sources[..i];
      lines := lines + ([Source(sources[i])] + Body(full, sources[i]) + [EndOfRecord]);
      i := i + 1;
    }
    assert sources[..i] == sources;
  }

  method MergeReports(reports: seq<Report>) returns (result: Result<Report>)
    ensures result == Merge(reports)
  {
    hide Print, ReadReport;
    var c := EMPTY;
    var i := 0;
    while i < |reports|
      invariant 0 <= i <= |reports|
      invariant ReadAll(EMPTY, reports) == ReadAll(c, reports[i..])
    {
      assert reports[i..][0] == reports[i] && reports[i..][1..] == reports[i + 1..];
      var read := ReadLines(c, reports[i]);
      if read.Err? {
        return Err(read.error);
      }
      c := read.value;
      i := i + 1;
    }
    if !Known(c) {
      return Err(UnknownFunction);
    }
    var lines := Write(c);
    result := Ok(lines);
  }
}
