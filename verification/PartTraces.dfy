/** What else the steps of a part's run tell: the attempts it opened, and which answers it received bytes of. */
module PartTraces {
  import opened Ranges
  import opened Transfer
  import opened TransferInvariant
  import opened TransferSteps
  import opened PartRuns
  import opened Retries
  import opened RetryBound
  import opened TotalBound
  import opened Options
  import opened Products

  // ----- Attempts -----

  /** The attempts opened. */
  ghost function Opens(steps: seq<Step>): set<nat> {
    set i: nat | i < |steps| && steps[i].action.Open?
  }

  lemma OneMoreOpen(steps: seq<Step>, step: Step)
    ensures |Opens(steps + [step])| == |Opens(steps)| + if step.action.Open? then 1 else 0
  {
    var more := steps + [step];
    assert forall i: nat :: i < |steps| ==> more[i] == steps[i];
    assert Opens(more) == Opens(steps) + if step.action.Open? then {|steps|} else {};
  }

  lemma OpenCounts(limits: Limits, entry: Entry, l: Local, a: Action)
    requires ValidLimits(limits) && Shaped(entry.length, l.part) && Enabled(l.part, a)
    ensures var p := Do(limits, entry, l, a);
      p.earlier + p.tries == l.part.earlier + l.part.tries + if a.Open? then 1 else 0
  {
    hide NextWorker, Taken, SplitUp, Matches, Arrived, Written;
  }

  lemma {:induction false} ReplayOpens(limits: Limits, entry: Entry, steps: seq<Step>)
    requires Runs(limits, entry, steps)
    ensures var p := Replay(limits, entry, steps); p.earlier + p.tries == |Opens(steps)|
  {
    hide Opens, Do, Shaped, Replay, Runs, Enabled;
    if steps == [] {
      ReplayNothing(limits, entry);
      NothingOpened(entry);
    } else {
      var init, last := steps[..|steps| - 1], steps[|steps| - 1];
      assert steps == init + [last];
      Shorter(limits, entry, init, last);
      ReplayOpens(limits, entry, init);
      OpenCounts(limits, entry, Local(Replay(limits, entry, init), last.shared), last.action);
      OneMoreOpen(init, last);
    }
  }

  lemma NothingOpened(entry: Entry)
    ensures Fresh(entry).earlier + Fresh(entry).tries == 0 == |Opens([])|
  {
  }

  /** A part opens a bounded number of attempts over all its passes, if the store answers ranges as such. */
  lemma OpensBounded(limits: Limits, entry: Entry, steps: seq<Step>, p: Part)
    requires Reachable(limits, entry, steps, p) && forall i :: 0 <= i < |steps| ==> Honours(steps[i].action)
    ensures |Opens(steps)| <= AttemptBound(limits, entry.length) * Patience(limits)
  {
    ReachableRuns(limits, entry, steps, p);
    ReplayOpens(limits, entry, steps);
    AllAttemptsBounded(limits, entry, steps, p);
  }

  // ----- Answers -----

  /** The last answer the store gave the part, and the last it gave one range. */
  ghost function LastAnswer(steps: seq<Step>): Option<Action> {
    if steps == [] then None
    else if steps[|steps| - 1].action.Answer? then Some(steps[|steps| - 1].action)
    else LastAnswer(steps[..|steps| - 1])
  }

  ghost function LastAnswerTo(steps: seq<Step>, k: nat): Option<Action> {
    if steps == [] then None
    else if steps[|steps| - 1].action.Answer? && steps[|steps| - 1].action.k == k then Some(steps[|steps| - 1].action)
    else LastAnswerTo(steps[..|steps| - 1], k)
  }

  ghost predicate HasBody(pc: Pc) {
    pc.Receiving? || pc.Writing? || pc.Counting?
  }

  /** The range's body is that of an answer of the length asked for, a range or all of a part that is one range. */
  ghost predicate Answered(w: Worker, answer: Option<Action>, alone: bool) {
    && (w.pc.Unranged? ==>
         answer.Some? && answer.value.Answer? && !answer.value.ranged && answer.value.lengthFits == w.pc.lengthFits)
    && (HasBody(w.pc) ==>
         answer.Some? && answer.value.Answer? && answer.value.lengthFits && (answer.value.ranged || alone))
  }

  ghost predicate AllAnswered(steps: seq<Step>, ws: seq<Worker>) {
    forall k :: 0 <= k < |ws| ==> Answered(ws[k], LastAnswerTo(steps, k), |ws| == 1)
  }

  ghost predicate Told(steps: seq<Step>, p: Part) {
    && p.honored == (LastAnswer(steps).Some? && LastAnswer(steps).value.Answer? && LastAnswer(steps).value.ranged)
    && AllAnswered(steps, p.workers)
  }

  lemma OneMoreAnswer(steps: seq<Step>, step: Step)
    ensures var more, a := steps + [step], step.action;
      && LastAnswer(more) == (if a.Answer? then Some(a) else LastAnswer(steps))
      && forall k: nat :: LastAnswerTo(more, k) == if a.Answer? && a.k == k then Some(a) else LastAnswerTo(steps, k)
  {
    assert (steps + [step])[..|steps|] == steps;
  }

  lemma QuietAnswered(limits: Limits, p: Part, stopping: bool, a: Action, answer: Option<Action>, alone: bool)
    requires Quiet(a) && WorkerEnabled(p.workers, a) && Answered(p.workers[a.k], answer, alone)
    ensures Answered(NextWorker(limits, p, stopping, a), if a.Answer? then Some(a) else answer, alone)
  {
  }

  lemma WorkerTold(limits: Limits, entry: Entry, steps: seq<Step>, p: Part, step: Step)
    requires ValidLimits(limits) && Shaped(entry.length, p) && WorkerEnabled(p.workers, step.action) && Told(steps, p)
    requires !step.action.TakeWhole? && !step.action.Split?
    ensures Told(steps + [step], Do(limits, entry, Local(p, step.shared), step.action))
  {
    var a, p' := step.action, Do(limits, entry, Local(p, step.shared), step.action);
    OneMoreAnswer(steps, step);
    hide LastAnswer, LastAnswerTo, NextWorker, Arrived, Written, Shaped;
    assert Answered(p.workers[a.k], LastAnswerTo(steps, a.k), |p.workers| == 1);
    if Quiet(a) {
      QuietAnswered(limits, p, step.shared.stopping, a, LastAnswerTo(steps, a.k), |p.workers| == 1);
    }
  }

  lemma TakeWholeTold(limits: Limits, entry: Entry, steps: seq<Step>, p: Part, step: Step)
    requires Inv(limits, entry, p) && WorkerEnabled(p.workers, step.action) && Told(steps, p) && step.action.TakeWhole?
    ensures Told(steps + [step], Do(limits, entry, Local(p, step.shared), step.action))
  {
    AloneIsWhole(limits, entry, p, step.action.k);
    hide Inv, LastAnswer, LastAnswerTo;
    OneMoreAnswer(steps, step);
    assert Answered(p.workers[step.action.k], LastAnswerTo(steps, step.action.k), |p.workers| == 1);
  }

  lemma SplitTold(limits: Limits, entry: Entry, steps: seq<Step>, p: Part, step: Step)
    requires Inv(limits, entry, p) && WorkerEnabled(p.workers, step.action) && Told(steps, p) && step.action.Split?
    ensures Told(steps + [step], Do(limits, entry, Local(p, step.shared), step.action))
  {
    var k, ws, p' := step.action.k, p.workers, Do(limits, entry, Local(p, step.shared), step.action);
    var taken := Taken(limits, ws[k].span, p.ranges, p.honored, step.shared.free);
    hide Inv, LastAnswer, LastAnswerTo, Taken;
    OneMoreAnswer(steps, step);
    forall j: nat | j < |p'.workers|
      ensures Answered(p'.workers[j], LastAnswerTo(steps + [step], j), |p'.workers| == 1)
    {
      assert j < |ws| ==> Answered(ws[j], LastAnswerTo(steps, j), |ws| == 1);
    }
  }

  lemma ThreadTold(limits: Limits, entry: Entry, steps: seq<Step>, p: Part, step: Step)
    requires ValidLimits(limits) && Shaped(entry.length, p) && ThreadEnabled(p, step.action) && Told(steps, p)
    ensures Told(steps + [step], Do(limits, entry, Local(p, step.shared), step.action))
  {
    hide LastAnswer, LastAnswerTo, Matches, Shaped;
    OneMoreAnswer(steps, step);
  }

  lemma StepTold(limits: Limits, entry: Entry, steps: seq<Step>, p: Part, step: Step)
    requires Inv(limits, entry, p) && Possible(limits, entry, p, step) && Told(steps, p)
    ensures Told(steps + [step], Do(limits, entry, Local(p, step.shared), step.action))
  {
    hide Told, Inv, Do, Shaped;
    if step.action.TakeWhole? {
      TakeWholeTold(limits, entry, steps, p, step);
    } else if step.action.Split? {
      SplitTold(limits, entry, steps, p, step);
    } else if WorkerEnabled(p.workers, step.action) {
      WorkerTold(limits, entry, steps, p, step);
    } else {
      ThreadTold(limits, entry, steps, p, step);
    }
  }

  lemma {:induction false} RunTold(limits: Limits, entry: Entry, steps: seq<Step>)
    requires Runs(limits, entry, steps)
    ensures Told(steps, Replay(limits, entry, steps))
  {
    hide Told, Inv, Do, Possible, Replay, Runs;
    if steps == [] {
      ReplayNothing(limits, entry);
      NothingTold(entry);
    } else {
      var init, last := steps[..|steps| - 1], steps[|steps| - 1];
      assert steps == init + [last];
      Shorter(limits, entry, init, last);
      RunTold(limits, entry, init);
      ReplayInv(limits, entry, init);
      StepTold(limits, entry, init, Replay(limits, entry, init), last);
    }
  }

  lemma NothingTold(entry: Entry)
    ensures Told([], Fresh(entry))
  {
  }

  /** A range receives bytes only of an answer of the length it asked for, and of a whole part only while the part
      is one range; and the part counts ranges as honoured exactly if its last answer was one. */
  lemma AnswersTaken(limits: Limits, entry: Entry, steps: seq<Step>, p: Part)
    requires Reachable(limits, entry, steps, p)
    ensures forall k :: 0 <= k < |p.workers| && HasBody(p.workers[k].pc) ==>
      && LastAnswerTo(steps, k).Some? && LastAnswerTo(steps, k).value.Answer?
      && LastAnswerTo(steps, k).value.lengthFits && (LastAnswerTo(steps, k).value.ranged || |p.workers| == 1)
    ensures p.honored <==> LastAnswer(steps).Some? && LastAnswer(steps).value.Answer? && LastAnswer(steps).value.ranged
  {
    ReachableRuns(limits, entry, steps, p);
    RunTold(limits, entry, steps);
    hide LastAnswer, LastAnswerTo, Reachable, Replay, Runs;
    forall k | 0 <= k < |p.workers| ensures Answered(p.workers[k], LastAnswerTo(steps, k), |p.workers| == 1) {
    }
  }

  // ----- Splits -----

  /** The limits, the spare requests and the store let a range with `left` bytes become `pieces` more. */
  ghost predicate MaySplit(limits: Limits, left: nat, ranges: int, free: nat, pieces: nat) {
    && pieces + 1 <= limits.splitWays
    && (pieces + 1) * limits.smallestRangeBytes <= left
    && ranges + pieces <= limits.mostRangesPerPart
    && pieces <= free
  }

  /** A range is split into as many pieces as the limits and the spare requests allow, if the last answer was a range;
      otherwise into none. */
  lemma SplitsAsFarAsAllowed(limits: Limits, entry: Entry, steps: seq<Step>, p: Part, shared: Shared, k: nat,
                             pieces: nat)
    requires Reachable(limits, entry, steps, p) && Possible(limits, entry, p, Step(shared, Split(k))) && pieces >= 1
    ensures var w := p.workers[k];
      |Do(limits, entry, Local(p, shared), Split(k)).workers| >= |p.workers| + pieces <==>
        && LastAnswer(steps).Some? && LastAnswer(steps).value.Answer? && LastAnswer(steps).value.ranged
        && MaySplit(limits, w.span.end - w.span.next, p.ranges, shared.free, pieces)
  {
    AnswersTaken(limits, entry, steps, p);
    hide LastAnswer, LastAnswerTo, Reachable;
    var w := p.workers[k];
    assert WorkerShaped(entry.length, w);
    DivideMeans(w.span.end - w.span.next, limits.smallestRangeBytes, pieces + 1);
  }

  lemma DivideMeans(left: nat, size: nat, count: nat)
    requires size >= 1
    ensures count <= left / size <==> count * size <= left
  {
    var q := left / size;
    assert size * q <= left < size * (q + 1);
    if count <= q {
      MulMonotone(size, count, q);
    } else {
      MulMonotone(size, q + 1, count);
    }
  }
}
