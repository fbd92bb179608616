/**
 LCOV reports as sequences of lines, each told apart by its kind and with its numbers read, and the counters
 that reading them adds up.
 */
module Lcov {
  import opened Options

  datatype Error =
    | EndOutsideRecord
    | RecordNotEnded
    | LineOutsideRecord
    | Unsupported
    | LastRecordNotEnded
    | UnknownFunction

  datatype Result<T> = Ok(value: T) | Err(error: Error)

  /** `Fn` holds what follows the start line's comma, where an end line may come before the name. `Brda`
      has no count where the branch was never reached. `Other` is a line no record may hold. */
  datatype Line =
    | Blank
    | Source(source: string)
    | Fn(start: int, rest: string)
    | Fnda(hits: int, name: string)
    | Da(number: int, hits: int)
    | Brda(number: int, block: string, branch: string, taken: Option<int>)
    | Summary(kind: string, count: nat)
    | EndOfRecord
    | Other

  type Report = seq<Line>

  // ----- Function records -----

  datatype FunctionRecord = FunctionRecord(name: string, start: int, end: Option<nat>) {
    function ToLine(): Line {
      if end == None then Fn(start, name) else Fn(start, Decimal(end.value) + "," + name)
    }
  }

  predicate IsDigit(c: char) {
    '0' <= c <= '9'
  }

  predicate IsDigits(s: string) {
    s != [] && forall i :: 0 <= i < |s| ==> IsDigit(s[i])
  }

  function Decimal(n: nat): (s: string)
    ensures IsDigits(s)
  {
    if n < 10 then ["0123456789"[n]] else Decimal(n / 10) + ["0123456789"[n % 10]]
  }

  function Value(s: string): nat
    requires forall i :: 0 <= i < |s| ==> IsDigit(s[i])
  {
    if s == [] then 0
    else
      assert IsDigit(s[|s| - 1]);
      Value(s[..|s| - 1]) * 10 + (s[|s| - 1] as int - '0' as int)
  }

  lemma {:induction false} ValueOfDecimal(n: nat)
    ensures Value(Decimal(n)) == n
  {
    var s := Decimal(n);
    if n < 10 {
      assert s[..0] == [];
    } else {
      ValueOfDecimal(n / 10);
      assert s[..|s| - 1] == Decimal(n / 10);
    }
  }

  /** Where the first comma stands, or the length where there is none. */
  function FirstComma(s: string): (k: nat)
    ensures k <= |s| && forall i :: 0 <= i < k ==> s[i] != ','
    ensures k < |s| ==> s[k] == ','
  {
    if s == [] || s[0] == ',' then 0 else 1 + FirstComma(s[1..])
  }

  predicate StartsWithNumber(s: string) {
    FirstComma(s) < |s| && IsDigits(s[..FirstComma(s)])
  }

  function ParseFunction(start: int, rest: string): FunctionRecord {
    var k := FirstComma(rest);
    if StartsWithNumber(rest) then FunctionRecord(rest[k + 1..], start, Some(Value(rest[..k])))
    else FunctionRecord(rest, start, None)
  }

  lemma CommaIsFirst(s: string, k: nat)
    requires k < |s| && s[k] == ',' && forall i :: 0 <= i < k ==> s[i] != ','
    ensures FirstComma(s) == k
  {
  }

  /** A function's line reads back as the function, exactly unless it records no end and its name starts
      with a number and a comma. */
  lemma FunctionRoundTrip(f: FunctionRecord)
    ensures ParseFunction(f.start, f.ToLine().rest) == f <==> f.end.Some? || !StartsWithNumber(f.name)
  {
    if f.end.Some? {
      var digits := Decimal(f.end.value);
      var rest := digits + "," + f.name;
      CommaIsFirst(rest, |digits|);
      assert rest[..|digits|] == digits && rest[|digits| + 1..] == f.name;
      ValueOfDecimal(f.end.value);
    }
  }

  ghost predicate Restorable(f: FunctionRecord) {
    f.end.Some? || !StartsWithNumber(f.name)
  }

  // ----- Counters -----

  datatype Site = Site(source: string, name: string)

  datatype Key =
    | HitsKey(source: string, name: string)
    | LineKey(source: string, number: int)
    | BranchKey(source: string, number: int, block: string, branch: string)

  /** Every source's counters: its functions by name, and each count by what it counts. */
  datatype Counters = Counters(
    sources: set<string>,
    functions: map<Site, FunctionRecord>,
    counts: map<Key, Option<int>>)

  const EMPTY := Counters({}, map[], map[])

  /** A branch that never ran adds nothing to a count elsewhere. */
  function Plus(a: Option<int>, b: Option<int>): Option<int> {
    if a == None then b else if b == None then a else Some(a.value + b.value)
  }

  function AddCounts(a: map<Key, Option<int>>, b: map<Key, Option<int>>): map<Key, Option<int>> {
    map k | k in a.Keys + b.Keys :: if k !in b then a[k] else if k !in a then b[k] else Plus(a[k], b[k])
  }

  /** The counters of two executions: counts are summed, and the first record of a function is kept. */
  function Add(a: Counters, b: Counters): Counters {
    Counters(a.sources + b.sources, b.functions + a.functions, AddCounts(a.counts, b.counts))
  }

  /** What one line of a source's record adds. */
  function Unit(source: string, line: Line): Counters {
    match line
    case Fn(start, rest) =>
      var f := ParseFunction(start, rest);
      Counters({}, map[Site(source, f.name) := f], map[])
    case Fnda(hits, name) => Counters({}, map[], map[HitsKey(source, name) := Some(hits)])
    case Da(number, hits) => Counters({}, map[], map[LineKey(source, number) := Some(hits)])
    case Brda(number, block, branch, taken) =>
      Counters({}, map[], map[BranchKey(source, number, block, branch) := taken])
    case _ => EMPTY
  }

  lemma CountsAssociate(a: map<Key, Option<int>>, b: map<Key, Option<int>>, c: map<Key, Option<int>>)
    ensures AddCounts(AddCounts(a, b), c) == AddCounts(a, AddCounts(b, c))
  {
    var left, right := AddCounts(AddCounts(a, b), c), AddCounts(a, AddCounts(b, c));
    assert left.Keys == right.Keys;
    forall k | k in left.Keys ensures left[k] == right[k] {
      assert k in AddCounts(a, b) <==> k in a || k in b;
      assert k in AddCounts(b, c) <==> k in b || k in c;
    }
  }

  lemma AddAssociates(a: Counters, b: Counters, c: Counters)
    ensures Add(Add(a, b), c) == Add(a, Add(b, c))
  {
    hide AddCounts;
    CountsAssociate(a.counts, b.counts, c.counts);
    assert c.functions + (b.functions + a.functions) == (c.functions + b.functions) + a.functions;
    assert a.sources + b.sources + c.sources == a.sources + (b.sources + c.sources);
  }

  lemma AddNothing(a: Counters)
    ensures Add(EMPTY, a) == a && Add(a, EMPTY) == a
  {
    assert Add(EMPTY, a).counts == a.counts && Add(a, EMPTY).counts == a.counts;
    assert Add(EMPTY, a).functions == a.functions;
  }

  // ----- Reading -----

  /** The counters read so far, and the source whose record is open. */
  datatype Reading = Reading(counters: Counters, current: Option<string>)

  predicate InBody(line: Line) {
    line.Fn? || line.Fnda? || line.Da? || line.Brda? || line.Summary?
  }

  function Step(s: Reading, line: Line): Result<Reading> {
    if line.Blank? then Ok(s)
    else if line.EndOfRecord? then
      if s.current == None then Err(EndOutsideRecord) else Ok(s.(current := None))
    else if line.Source? then
      if s.current.Some? then Err(RecordNotEnded)
      else Ok(Reading(s.counters.(sources := s.counters.sources + {line.source}), Some(line.source)))
    else if s.current == None then Err(LineOutsideRecord)
    else if InBody(line) then Ok(s.(counters := Add(s.counters, Unit(s.current.value, line))))
    else Err(Unsupported)
  }

  function Read(s: Reading, lines: Report): Result<Reading>
    decreases |lines|
  {
    if lines == [] then Ok(s)
    else
      var r := Step(s, lines[0]);
      if r.Err? then r else Read(r.value, lines[1..])
  }

  /** The counters after one more report, which must end its last record. */
  function ReadReport(c: Counters, report: Report): Result<Counters> {
    var r := Read(Reading(c, None), report);
    if r.Err? then Err(r.error)
    else if r.value.current.Some? then Err(LastRecordNotEnded)
    else Ok(r.value.counters)
  }

  function ReadAll(c: Counters, reports: seq<Report>): Result<Counters>
    decreases |reports|
  {
    if reports == [] then Ok(c)
    else
      var r := ReadReport(c, reports[0]);
      if r.Err? then r else ReadAll(r.value, reports[1..])
  }

  lemma {:induction false} ReadConcat(s: Reading, a: Report, b: Report)
    ensures Read(s, a + b) == (var r := Read(s, a); if r.Err? then r else Read(r.value, b))
    decreases |a|
  {
    if a == [] {
      assert a + b == b;
    } else {
      assert (a + b)[0] == a[0] && (a + b)[1..] == a[1..] + b;
      if Step(s, a[0]).Ok? {
        ReadConcat(Step(s, a[0]).value, a[1..], b);
      }
    }
  }

  /** What was read before only adds to what a report adds. */
  lemma {:induction false} ReadAdds(c: Counters, d: Counters, current: Option<string>, lines: Report)
    ensures var from, alone := Read(Reading(Add(c, d), current), lines), Read(Reading(d, current), lines);
            && (alone.Err? ==> from == alone)
            && (alone.Ok? ==> from == Ok(alone.value.(counters := Add(c, alone.value.counters))))
    decreases |lines|
  {
    if lines != [] {
      var line := lines[0];
      if Step(Reading(d, current), line).Ok? {
        if InBody(line) {
          AddAssociates(c, d, Unit(current.value, line));
        } else if line.Source? {
          assert Add(c, d).(sources := Add(c, d).sources + {line.source}) ==
                 Add(c, d.(sources := d.sources + {line.source}));
        }
        var next := Step(Reading(d, current), line).value;
        ReadAdds(c, next.counters, next.current, lines[1..]);
      }
    }
  }

  /** A report adds the same whatever was read before it. */
  lemma ReportAdds(c: Counters, report: Report)
    ensures var from, alone := ReadReport(c, report), ReadReport(EMPTY, report);
            && (alone.Err? ==> from == alone)
            && (alone.Ok? ==> from == Ok(Add(c, alone.value)))
  {
    ReadAdds(c, EMPTY, None, report);
    AddNothing(c);
  }

  lemma {:induction false} ReadAllConcat(c: Counters, a: seq<Report>, b: seq<Report>)
    ensures ReadAll(c, a + b) == (var r := ReadAll(c, a); if r.Err? then r else ReadAll(r.value, b))
    decreases |a|
  {
    if a == [] {
      assert a + b == b;
    } else {
      assert (a + b)[0] == a[0] && (a + b)[1..] == a[1..] + b;
      if ReadReport(c, a[0]).Ok? {
        ReadAllConcat(ReadReport(c, a[0]).value, a[1..], b);
      }
    }
  }

  lemma {:induction false} ReadAllAdds(c: Counters, reports: seq<Report>)
    ensures var from, alone := ReadAll(c, reports), ReadAll(EMPTY, reports);
            && (alone.Err? ==> from == alone)
            && (alone.Ok? ==> from == Ok(Add(c, alone.value)))
    decreases |reports|
  {
    AddNothing(c);
    if reports != [] {
      ReportAdds(c, reports[0]);
      ReportAdds(EMPTY, reports[0]);
      var first := ReadReport(EMPTY, reports[0]);
      if first.Ok? {
        AddNothing(first.value);
        ReadAllAdds(first.value, reports[1..]);
        ReadAllAdds(Add(c, first.value), reports[1..]);
        var rest := ReadAll(EMPTY, reports[1..]);
        if rest.Ok? {
          AddAssociates(c, first.value, rest.value);
        }
      }
    }
  }

  // ----- Which reports are read -----

  /** A record is open before the line. */
  ghost predicate Inside(report: Report, i: nat) {
    exists a :: 0 <= a < i <= |report| && report[a].Source? && forall j :: a < j < i ==> !report[j].EndOfRecord?
  }

  /** What is wrong with a line where it stands. */
  ghost function Fault(report: Report, i: nat): Option<Error>
    requires i < |report|
  {
    var line, inside := report[i], Inside(report, i);
    if line.Blank? then None
    else if line.EndOfRecord? then if inside then None else Some(EndOutsideRecord)
    else if line.Source? then if inside then Some(RecordNotEnded) else None
    else if !inside then Some(LineOutsideRecord)
    else if InBody(line) then None else Some(Unsupported)
  }

  lemma InsideNext(report: Report, i: nat)
    requires i < |report|
    ensures Inside(report, i + 1) <==>
      report[i].Source? || (Inside(report, i) && !report[i].EndOfRecord?)
  {
    if report[i].Source? {
      assert Inside(report, i + 1);
    } else if Inside(report, i) && !report[i].EndOfRecord? {
      var a :| 0 <= a < i && report[a].Source? && forall j :: a < j < i ==> !report[j].EndOfRecord?;
      assert Inside(report, i + 1);
    } else if Inside(report, i + 1) {
      var a :| 0 <= a < i + 1 && report[a].Source? && forall j :: a < j < i + 1 ==> !report[j].EndOfRecord?;
    }
  }

  /** The first fault from a line on, or else a last record that is open. */
  ghost function FirstFault(report: Report, i: nat): Option<Error>
    requires i <= |report|
    decreases |report| - i
  {
    if i == |report| then if Inside(report, i) then Some(LastRecordNotEnded) else None
    else if Fault(report, i).Some? then Fault(report, i)
    else FirstFault(report, i + 1)
  }

  lemma {:induction false} FaultsDecide(s: Reading, report: Report, i: nat)
    requires i <= |report| && (s.current.Some? <==> Inside(report, i))
    ensures var r := Read(s, report[i..]);
      FirstFault(report, i) ==
        if r.Err? then Some(r.error) else if r.value.current.Some? then Some(LastRecordNotEnded) else None
    decreases |report| - i
  {
    hide Add, Unit;
    if i < |report| {
      InsideNext(report, i);
      hide Inside;
      assert report[i..][0] == report[i] && report[i..][1..] == report[i + 1..];
      if Step(s, report[i]).Ok? {
        FaultsDecide(Step(s, report[i]).value, report, i + 1);
      }
    }
  }

  /** A report is read exactly if each line may stand where it does and its last record ends; otherwise its first
      fault is the error. */
  lemma ReadsExactly(c: Counters, report: Report)
    ensures ReadReport(c, report).Ok? <==>
      (forall i :: 0 <= i < |report| ==> Fault(report, i) == None) && !Inside(report, |report|)
    ensures ReadReport(c, report).Err? ==> FirstFault(report, 0) == Some(ReadReport(c, report).error)
  {
    assert !Inside(report, 0) && report[0..] == report;
    FaultsDecide(Reading(c, None), report, 0);
    NoFault(report, 0);
  }

  lemma {:induction false} NoFault(report: Report, n: nat)
    requires n <= |report|
    ensures FirstFault(report, n) == None <==>
      (forall i :: n <= i < |report| ==> Fault(report, i) == None) && !Inside(report, |report|)
    decreases |report| - n
  {
    hide Fault, Inside;
    if n < |report| && Fault(report, n) == None {
      NoFault(report, n + 1);
    }
  }

  // ----- What every reading keeps -----

  /** Each function stands under its own name and reads back, and everything has its source. */
  ghost predicate Sound(c: Counters) {
    && (forall site :: site in c.functions ==> c.functions[site].name == site.name && Restorable(c.functions[site]))
    && (forall site :: site in c.functions ==> site.source in c.sources)
    && (forall k :: k in c.counts ==> k.source in c.sources && (c.counts[k] == None ==> k.BranchKey?))
  }

  /** Every function that was counted has its line. */
  predicate Known(c: Counters) {
    forall k :: k in c.counts && k.HitsKey? ==> Site(k.source, k.name) in c.functions
  }

  lemma ParsedIsRestorable(start: int, rest: string)
    ensures Restorable(ParseFunction(start, rest))
  {
  }

  lemma StepKeepsSound(s: Reading, line: Line)
    requires Sound(s.counters) && (s.current.Some? ==> s.current.value in s.counters.sources) && Step(s, line).Ok?
    ensures var r := Step(s, line).value;
            Sound(r.counters) && (r.current.Some? ==> r.current.value in r.counters.sources)
  {
    if InBody(line) {
      UnitKeepsSound(s.counters, s.current.value, line);
      hide Add, Unit;
    }
  }

  lemma UnitKeepsSound(c: Counters, source: string, line: Line)
    requires Sound(c) && source in c.sources
    ensures Sound(Add(c, Unit(source, line))) && Add(c, Unit(source, line)).sources == c.sources
  {
    if line.Fn? {
      ParsedIsRestorable(line.start, line.rest);
    }
    hide Restorable, ParseFunction;
  }

  lemma {:induction false} ReadKeepsSound(s: Reading, lines: Report)
    requires Sound(s.counters) && (s.current.Some? ==> s.current.value in s.counters.sources) && Read(s, lines).Ok?
    ensures Sound(Read(s, lines).value.counters)
    decreases |lines|
  {
    hide Sound, Step;
    if lines != [] {
      StepKeepsSound(s, lines[0]);
      ReadKeepsSound(Step(s, lines[0]).value, lines[1..]);
    }
  }

  lemma {:induction false} AllKeepSound(c: Counters, reports: seq<Report>)
    requires Sound(c) && ReadAll(c, reports).Ok?
    ensures Sound(ReadAll(c, reports).value)
    decreases |reports|
  {
    hide Sound;
    if reports != [] {
      ReadKeepsSound(Reading(c, None), reports[0]);
      AllKeepSound(ReadReport(c, reports[0]).value, reports[1..]);
    }
  }
}
